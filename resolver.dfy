/**
 * The resolver: `Resolve` normalises the reported manufacturer and dispatches to one of four
 * per-manufacturer resolvers. Each of those normalises the model, rewrites a lookup key
 * through its ordered prefix rules, and looks the key up in its alias table.
 *
 * The functions state what each step yields; the methods follow the source's statements
 * (a fresh result object, a lookup key reassigned by successive `if`s, `Lookup` updating
 * the result in place) and are proved to agree with the functions.
 */
module PhoneNameResolver {
  import opened Wrappers
  import opened Text
  import opened CanonicalNames
  import opened LookupTables

  datatype Manufacturer = Nokia | Htc | Samsung | Lg

  /** `s.Trim().ToUpper()`. */
  function Normalize(s: string): (r: string)
    ensures NoLower(r)
    ensures |r| <= |s|
  {
    ToUpper(Trim(s))
  }

  /** The constant a per-manufacturer resolver writes into CanonicalManufacturer. */
  function Name(m: Manufacturer): string
  {
    match m
    case Nokia => "NOKIA"
    case Htc => "HTC"
    case Samsung => "SAMSUNG"
    case Lg => "LG"
  }

  /** The `switch` on the normalised manufacturer: a known manufacturer is one whose name it is. */
  function ManufacturerOf(normalized: string): (m: Option<Manufacturer>)
    ensures m.Some? <==> normalized in {"NOKIA", "HTC", "SAMSUNG", "LG"}
    ensures m.Some? ==> Name(m.value) == normalized
  {
    match normalized
    case "NOKIA" => Some(Nokia)
    case "HTC" => Some(Htc)
    case "SAMSUNG" => Some(Samsung)
    case "LG" => Some(Lg)
    case _ => None
  }

  // ---------------------------------------------------------------------------------------
  // Prefix-collapsing rules

  /** `if (lookupValue.StartsWith(prefix)) { lookupValue = collapsed; }` */
  datatype PrefixRule = PrefixRule(prefix: string, collapsed: string)

  const LG_RULES: seq<PrefixRule> := [PrefixRule("LG-C900", "LG-C900"), PrefixRule("LG-E900", "LG-E900")]
  const SAMSUNG_RULES: seq<PrefixRule> := [PrefixRule("GT-S7530", "GT-S7530"), PrefixRule("SGH-I917", "SGH-I917")]
  const HTC_RULES: seq<PrefixRule> :=
    [PrefixRule("A620", "A620"), PrefixRule("C625", "C625"), PrefixRule("C620", "C625")]

  /**
   * The rules applied in order, each one testing the key as the rules before it left it.
   * The result is the key itself or the collapsed key of one of the rules.
   */
  function ApplyRules(key: string, rules: seq<PrefixRule>): (r: string)
    ensures r == key || exists i :: 0 <= i < |rules| && r == rules[i].collapsed
    decreases |rules|
  {
    if rules == [] then key
    else
      var next := if StartsWith(key, rules[0].prefix) then rules[0].collapsed else key;
      var r := ApplyRules(next, rules[1..]);
      assert r != next ==> exists i :: 1 <= i < |rules| && r == rules[i].collapsed by {
        if r != next {
          var j :| 0 <= j < |rules[1..]| && r == rules[1..][j].collapsed;
          assert r == rules[j + 1].collapsed;
        }
      }
      r
  }

  /**
   * The Nokia rule: a normalised model that starts with "RM-" is cut to its first six
   * characters, with `Substring(0, 6)`, which throws when the model is shorter than that.
   */
  function NokiaKey(normalized: string): (r: Result<string, Exception>)
    ensures r.Success? ==> StartsWith(normalized, r.value)
    ensures r.Failure? ==> StartsWith(normalized, "RM-")
  {
    if StartsWith(normalized, "RM-") then Substring(normalized, 0, 6) else Success(normalized)
  }

  /** The key a manufacturer's resolver looks up for `model`, or the exception it raises. */
  function LookupKey(m: Manufacturer, model: string): (r: Result<string, Exception>)
    ensures r.Failure? ==> m == Nokia
    ensures r.Success? ==>
      StartsWith(Normalize(model), r.value) || r.value in {"LG-C900", "LG-E900", "GT-S7530", "SGH-I917", "A620", "C625"}
  {
    var normalized := Normalize(model);
    match m
    case Nokia => NokiaKey(normalized)
    case Htc => Success(ApplyRules(normalized, HTC_RULES))
    case Samsung => Success(ApplyRules(normalized, SAMSUNG_RULES))
    case Lg => Success(ApplyRules(normalized, LG_RULES))
  }

  /** The row of manufacturer `m`'s alias table stored under `key`, if any. */
  function Table(m: Manufacturer, key: string): Option<PhoneName>
  {
    match m
    case Nokia => NokiaLookupTable(key)
    case Htc => HtcLookupTable(key)
    case Samsung => SamsungLookupTable(key)
    case Lg => LgLookupTable(key)
  }

  // ---------------------------------------------------------------------------------------
  // What each step yields

  /**
   * The record `Lookup` leaves when the table gives `found` for its key: on a hit, the
   * entry's canonical model, comments, screen size, OS version and resolution class, marked
   * resolved, with the reported names and the canonical manufacturer kept; on a miss, `r`
   * itself.
   */
  function AfterLookup(found: Option<PhoneName>, r: PhoneName): (after: PhoneName)
    ensures found.None? ==> after == r
    ensures found.Some? ==>
      && after.isResolved
      && after.canonicalModel == found.value.canonicalModel
      && after.comments == found.value.comments
      && after.screenSize == found.value.screenSize
      && after.osVersion == found.value.osVersion
      && after.screenResolution == found.value.screenResolution
      && after.reportedManufacturer == r.reportedManufacturer
      && after.reportedModel == r.reportedModel
      && after.canonicalManufacturer == r.canonicalManufacturer
  {
    match found
    case None => r
    case Some(entry) =>
      r.(canonicalModel := entry.canonicalModel, comments := entry.comments, screenSize := entry.screenSize,
         osVersion := entry.osVersion, screenResolution := entry.screenResolution, isResolved := true)
  }

  /** The unresolved record a per-manufacturer resolver starts from. */
  function Seed(m: Manufacturer, manufacturer: string, model: string): (r: PhoneName)
    ensures !r.isResolved && r.comments == None && r.screenSize == 0 && r.osVersion == 0
    ensures r.reportedManufacturer == manufacturer && r.reportedModel == model
    ensures r.canonicalManufacturer == Name(m) && r.canonicalModel == model
  {
    BLANK.(reportedManufacturer := manufacturer, reportedModel := model,
           canonicalManufacturer := Name(m), canonicalModel := model)
  }

  /** What the resolver for manufacturer `m` returns, or the exception it raises. */
  function ResolutionBy(m: Manufacturer, manufacturer: string, model: string): (r: Result<PhoneName, Exception>)
    ensures r.Failure? ==> m == Nokia
    ensures r.Success? ==>
      && r.value.reportedManufacturer == manufacturer && r.value.reportedModel == model
      && r.value.canonicalManufacturer == Name(m)
  {
    match LookupKey(m, model)
    case Failure(e) => Failure(e)
    case Success(key) => Success(AfterLookup(Table(m, key), Seed(m, manufacturer, model)))
  }

  /** What `Resolve(manufacturer, model)` returns, or the exception it raises. */
  function Resolution(manufacturer: string, model: string): (r: Result<PhoneName, Exception>)
    ensures r.Success? ==> r.value.reportedManufacturer == manufacturer && r.value.reportedModel == model
    ensures r.Failure? ==> Normalize(manufacturer) == "NOKIA"
  {
    match ManufacturerOf(Normalize(manufacturer))
    case None =>
      Success(BLANK.(reportedManufacturer := manufacturer, reportedModel := model,
                     canonicalManufacturer := manufacturer, canonicalModel := model))
    case Some(m) => ResolutionBy(m, manufacturer, model)
  }

  // ---------------------------------------------------------------------------------------
  // The resolver's statements

  method Lookup(lookupTable: string -> Option<PhoneName>, lookupValue: string, result: CanonicalPhoneName)
    modifies result
    ensures result.Value() == AfterLookup(lookupTable(lookupValue), old(result.Value()))
  {
    var modelMetadata := lookupTable(lookupValue);
    if modelMetadata.Some? {
      result.canonicalModel := modelMetadata.value.canonicalModel;
      result.comments := modelMetadata.value.comments;
      result.screenSize := modelMetadata.value.screenSize;
      result.osVersion := modelMetadata.value.osVersion;
      result.screenResolution := modelMetadata.value.screenResolution;
      result.isResolved := true;
    }
  }

  method ResolveLg(manufacturer: string, model: string) returns (result: CanonicalPhoneName)
    ensures fresh(result)
    ensures Success(result.Value()) == ResolutionBy(Lg, manufacturer, model)
  {
    var modelNormalized := Normalize(model);
    result := new CanonicalPhoneName(manufacturer, model, "LG", model);
    var lookupValue := modelNormalized;
    if StartsWith(lookupValue, "LG-C900") {
      lookupValue := "LG-C900";
    }
    if StartsWith(lookupValue, "LG-E900") {
      lookupValue := "LG-E900";
    }
    assert lookupValue == ApplyRules(modelNormalized, LG_RULES);
    Lookup(LgLookupTable, lookupValue, result);
  }

  method ResolveSamsung(manufacturer: string, model: string) returns (result: CanonicalPhoneName)
    ensures fresh(result)
    ensures Success(result.Value()) == ResolutionBy(Samsung, manufacturer, model)
  {
    var modelNormalized := Normalize(model);
    result := new CanonicalPhoneName(manufacturer, model, "SAMSUNG", model);
    var lookupValue := modelNormalized;
    if StartsWith(lookupValue, "GT-S7530") {
      lookupValue := "GT-S7530";
    }
    if StartsWith(lookupValue, "SGH-I917") {
      lookupValue := "SGH-I917";
    }
    assert lookupValue == ApplyRules(modelNormalized, SAMSUNG_RULES);
    Lookup(SamsungLookupTable, lookupValue, result);
  }

  method ResolveHtc(manufacturer: string, model: string) returns (result: CanonicalPhoneName)
    ensures fresh(result)
    ensures Success(result.Value()) == ResolutionBy(Htc, manufacturer, model)
  {
    var modelNormalized := Normalize(model);
    result := new CanonicalPhoneName(manufacturer, model, "HTC", model);
    var lookupValue := modelNormalized;
    if StartsWith(lookupValue, "A620") {
      lookupValue := "A620";
    }
    assert ApplyRules(modelNormalized, HTC_RULES) == ApplyRules(lookupValue, HTC_RULES[1..]);
    if StartsWith(lookupValue, "C625") {
      lookupValue := "C625";
    }
    assert ApplyRules(modelNormalized, HTC_RULES) == ApplyRules(lookupValue, HTC_RULES[2..]);
    if StartsWith(lookupValue, "C620") {
      lookupValue := "C625";
    }
    assert ApplyRules(modelNormalized, HTC_RULES) == ApplyRules(lookupValue, []);
    Lookup(HtcLookupTable, lookupValue, result);
  }

  /** Raises ArgumentOutOfRange, as `Substring(0, 6)` does, for a short "RM-" model. */
  method ResolveNokia(manufacturer: string, model: string) returns (r: Result<CanonicalPhoneName, Exception>)
    ensures r.Success? <==> ResolutionBy(Nokia, manufacturer, model).Success?
    ensures r.Success? ==> fresh(r.value) && r.value.Value() == ResolutionBy(Nokia, manufacturer, model).value
  {
    var modelNormalized := Normalize(model);
    var result := new CanonicalPhoneName(manufacturer, model, "NOKIA", model);
    var lookupValue := modelNormalized;
    if StartsWith(modelNormalized, "RM-") {
      var cut := Substring(modelNormalized, 0, 6);
      if cut.Failure? {
        return Failure(cut.error);
      }
      lookupValue := cut.value;
    }
    Lookup(NokiaLookupTable, lookupValue, result);
    return Success(result);
  }

  method Resolve(manufacturer: string, model: string) returns (r: Result<CanonicalPhoneName, Exception>)
    ensures r.Success? <==> Resolution(manufacturer, model).Success?
    ensures r.Success? ==> fresh(r.value) && r.value.Value() == Resolution(manufacturer, model).value
  {
    var manufacturerNormalized := Normalize(manufacturer);
    match manufacturerNormalized
    case "NOKIA" =>
      r := ResolveNokia(manufacturer, model);
    case "HTC" =>
      var result := ResolveHtc(manufacturer, model);
      r := Success(result);
    case "SAMSUNG" =>
      var result := ResolveSamsung(manufacturer, model);
      r := Success(result);
    case "LG" =>
      var result := ResolveLg(manufacturer, model);
      r := Success(result);
    case _ =>
      var result := new CanonicalPhoneName(manufacturer, model, manufacturer, model);
      r := Success(result);
  }
}
