/**
 * The resolver's output record, `CanonicalPhoneName`, and the screen-resolution classes.
 * `PhoneName` is the value of one such record (all of its fields at one moment);
 * the class `CanonicalPhoneName` is the mutable object the resolver fills in.
 */
module CanonicalNames {
  import opened Wrappers

  datatype ScreenResolution = WVGA | WXGA | HD720

  /**
   * The fields of a CanonicalPhoneName. `comments` is None where the record holds a null
   * string; `screenSize` is in tenths of an inch.
   */
  datatype PhoneName = PhoneName(
    reportedManufacturer: string,
    reportedModel: string,
    canonicalManufacturer: string,
    canonicalModel: string,
    comments: Option<string>,
    isResolved: bool,
    screenSize: int,
    osVersion: int,
    screenResolution: ScreenResolution)

  /** What a freshly allocated record holds: empty strings, no comment, 0, false, and WVGA (the first resolution class). */
  const BLANK: PhoneName := PhoneName("", "", "", "", None, false, 0, 0, WVGA)

  /** The record built by the constructor that takes an OS version. */
  function WithOsVersion(osVersion: int): (p: PhoneName)
    ensures p.osVersion == osVersion
    ensures p.screenResolution == WVGA
    ensures !p.isResolved && p.comments == None && p.screenSize == 0
  {
    BLANK.(osVersion := osVersion, screenResolution := WVGA)
  }

  class CanonicalPhoneName {
    var reportedManufacturer: string
    var reportedModel: string
    var canonicalManufacturer: string
    var canonicalModel: string
    var comments: Option<string>
    var isResolved: bool
    var screenSize: int
    var osVersion: int
    var screenResolution: ScreenResolution

    /** The record's fields as a value. */
    function Value(): PhoneName
      reads this
    {
      PhoneName(reportedManufacturer, reportedModel, canonicalManufacturer, canonicalModel,
                comments, isResolved, screenSize, osVersion, screenResolution)
    }

    /**
     * A record built with the parameterless constructor and an object initialiser that sets
     * the reported and canonical names and leaves the record unresolved.
     */
    constructor (reportedManufacturer: string, reportedModel: string,
                 canonicalManufacturer: string, canonicalModel: string)
      ensures Value() == BLANK.(reportedManufacturer := reportedManufacturer,
                                reportedModel := reportedModel,
                                canonicalManufacturer := canonicalManufacturer,
                                canonicalModel := canonicalModel)
    {
      this.reportedManufacturer := reportedManufacturer;
      this.reportedModel := reportedModel;
      this.canonicalManufacturer := canonicalManufacturer;
      this.canonicalModel := canonicalModel;
      comments := None;
      isResolved := false;
      screenSize := 0;
      osVersion := 0;
      screenResolution := WVGA;
    }

    /** The constructor that takes an OS version; every resolution class defaults to WVGA. */
    constructor FromOsVersion(osVersion: int)
      ensures Value() == WithOsVersion(osVersion)
    {
      reportedManufacturer, reportedModel := "", "";
      canonicalManufacturer, canonicalModel := "", "";
      comments := None;
      isResolved := false;
      screenSize := 0;
      this.osVersion := osVersion;
      screenResolution := WVGA;
    }

    /** The manufacturer and the model separated by one space; both parts can be read back. */
    function FullCanonicalName(): (name: string)
      reads this
      ensures |name| == |canonicalManufacturer| + 1 + |canonicalModel|
      ensures name[..|canonicalManufacturer|] == canonicalManufacturer
      ensures name[|canonicalManufacturer|] == ' '
      ensures name[|canonicalManufacturer| + 1..] == canonicalModel
    {
      canonicalManufacturer + " " + canonicalModel
    }
  }
}
