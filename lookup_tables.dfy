/**
 * The four static alias tables, one per manufacturer. A table is read only through
 * TryGetValue, so each is written as the function from a lookup key to the stored record
 * (None when the key is absent): one `match` case per initialiser row, in the source's order.
 * Dafny refuses a `match` with two identical case literals (a redundant branch), just as
 * the dictionary initialiser throws on a second Add of one key; so the keys are distinct.
 */
module LookupTables {
  import opened Wrappers
  import opened CanonicalNames

  /**
   * A table row's record: `new CanonicalPhoneName(osVersion) { CanonicalModel = model,
   * ScreenSize = screenSize }` (screen size in tenths of an inch). A row that also sets
   * ScreenResolution or Comments is written with a further field update.
   */
  function Device(osVersion: int, model: string, screenSize: int): (p: PhoneName)
    ensures p.osVersion == osVersion && p.screenResolution == WVGA
    ensures p.canonicalModel == model && p.screenSize == screenSize && p.comments == None
  {
    WithOsVersion(osVersion).(canonicalModel := model, screenSize := screenSize)
  }

  /** lgLookupTable (PhoneNameResolver.cs:185-195), 3 rows. */
  function LgLookupTable(key: string): (entry: Option<PhoneName>)
    ensures entry.Some? ==> entry.value.osVersion == 7 && entry.value.screenSize > 0
  {
    match key
    case "LG-C900" => Some(Device(7, "Optimus 7Q/Quantum", 35))
    case "LG-E900" => Some(Device(7, "Optimus 7", 38))
    case "LG-E906" => Some(Device(7, "Jil Sander", 38))
    case _ => None
  }

  /** samsungLookupTable (PhoneNameResolver.cs:197-232), 16 rows. */
  function SamsungLookupTable(key: string): (entry: Option<PhoneName>)
    ensures entry.Some? ==> entry.value.osVersion in {7, 8} && entry.value.screenSize > 0
  {
    match key
    case "GT-I8350" => Some(Device(7, "Omnia W", 37))
    case "GT-I8350T" => Some(Device(7, "Omnia W", 37))
    case "OMNIA W" => Some(Device(7, "Omnia W", 37))
    case "GT-I8700" => Some(Device(7, "Omnia 7", 40))
    case "OMNIA7" => Some(Device(7, "Omnia 7", 40))
    case "GT-S7530" => Some(Device(7, "Omnia 7", 40))
    case "I917" => Some(Device(7, "Focus", 40))
    case "SGH-I917" => Some(Device(7, "Focus", 40))
    case "SGH-I667" => Some(Device(7, "Focus 2", 40))
    case "SGH-I677" => Some(Device(7, "Focus Flash", 37))
    case "HADEN" => Some(Device(7, "Focus S", 43))
    case "SGH-I937" => Some(Device(7, "Focus S", 43))
    case "GT-I8750" => Some(Device(8, "ATIV S", 48).(screenResolution := HD720))
    case "SGH-T899M" => Some(Device(8, "ATIV S", 48).(screenResolution := HD720))
    case "SCH-I930" => Some(Device(8, "ATIV Odyssey", 40))
    case "SCH-R860U" => Some(Device(8, "ATIV Odyssey", 40).(comments := Some("US Cellular")))
    case _ => None
  }

  /** htcLookupTable (PhoneNameResolver.cs:234-319), 55 rows. */
  function HtcLookupTable(key: string): (entry: Option<PhoneName>)
    ensures entry.Some? ==> entry.value.osVersion in {6, 7, 8} && entry.value.screenSize > 0
  {
    match key
    case "7 MONDRIAN T8788" => Some(Device(7, "Surround", 38))
    case "T8788" => Some(Device(7, "Surround", 38))
    case "SURROUND" => Some(Device(7, "Surround", 38))
    case "SURROUND T8788" => Some(Device(7, "Surround", 38))
    case "7 MOZART" => Some(Device(7, "Mozart", 37))
    case "7 MOZART T8698" => Some(Device(7, "Mozart", 37))
    case "HTC MOZART" => Some(Device(7, "Mozart", 37))
    case "MERSAD 7 MOZART T8698" => Some(Device(7, "Mozart", 37))
    case "MOZART" => Some(Device(7, "Mozart", 37))
    case "MOZART T8698" => Some(Device(7, "Mozart", 37))
    case "PD67100" => Some(Device(7, "Mozart", 37))
    case "T8697" => Some(Device(7, "Mozart", 37))
    case "7 PRO T7576" => Some(Device(7, "7 Pro", 36))
    case "MWP6885" => Some(Device(7, "7 Pro", 36))
    case "USCCHTC-PC93100" => Some(Device(7, "7 Pro", 36))
    case "PC93100" => Some(Device(7, "Arrive", 36).(comments := Some("Sprint")))
    case "T7575" => Some(Device(7, "Arrive", 36).(comments := Some("Sprint")))
    case "HD2" => Some(Device(6, "HD2", 43))
    case "HD2 LEO" => Some(Device(6, "HD2", 43))
    case "LEO" => Some(Device(6, "HD2", 43))
    case "7 SCHUBERT T9292" => Some(Device(7, "HD7", 43))
    case "GOLD" => Some(Device(7, "HD7", 43))
    case "HD7" => Some(Device(7, "HD7", 43))
    case "HD7 T9292" => Some(Device(7, "HD7", 43))
    case "MONDRIAN" => Some(Device(7, "HD7", 43))
    case "SCHUBERT" => Some(Device(7, "HD7", 43))
    case "Schubert T9292" => Some(Device(7, "HD7", 43))
    case "T9296" => Some(Device(7, "HD7", 43).(comments := Some("Telstra, AU")))
    case "TOUCH-IT HD7" => Some(Device(7, "HD7", 43))
    case "T9295" => Some(Device(7, "HD7S", 43))
    case "7 TROPHY" => Some(Device(7, "Trophy", 38))
    case "7 TROPHY T8686" => Some(Device(7, "Trophy", 38))
    case "PC40100" => Some(Device(7, "Trophy", 38).(comments := Some("Verizon")))
    case "SPARK" => Some(Device(7, "Trophy", 38))
    case "TOUCH-IT TROPHY" => Some(Device(7, "Trophy", 38))
    case "MWP6985" => Some(Device(7, "Trophy", 38))
    case "A620" => Some(Device(8, "8S", 40))
    case "WINDOWS PHONE 8S BY HTC" => Some(Device(8, "8S", 40))
    case "C620" => Some(Device(8, "8X", 43).(screenResolution := HD720))
    case "C625" => Some(Device(8, "8X", 43).(screenResolution := HD720))
    case "HTC6990LVW" => Some(Device(8, "8X", 43).(screenResolution := HD720, comments := Some("Verizon")))
    case "PM23300" => Some(Device(8, "8X", 43).(screenResolution := HD720, comments := Some("AT&T")))
    case "WINDOWS PHONE 8X BY HTC" => Some(Device(8, "8X", 43).(screenResolution := HD720))
    case "HTCPO881 SPRINT" => Some(Device(8, "8XT", 43).(comments := Some("Sprint")))
    case "ETERNITY" => Some(Device(7, "Titan", 47).(comments := Some("China")))
    case "PI39100" => Some(Device(7, "Titan", 47).(comments := Some("AT&T")))
    case "TITAN X310E" => Some(Device(7, "Titan", 47))
    case "ULTIMATE" => Some(Device(7, "Titan", 47))
    case "X310E" => Some(Device(7, "Titan", 47))
    case "X310E TITAN" => Some(Device(7, "Titan", 47))
    case "PI86100" => Some(Device(7, "Titan II", 47).(comments := Some("AT&T")))
    case "RADIANT" => Some(Device(7, "Titan II", 47))
    case "RADAR" => Some(Device(7, "Radar", 38))
    case "RADAR 4G" => Some(Device(7, "Radar", 38).(comments := Some("T-Mobile USA")))
    case "RADAR C110E" => Some(Device(7, "Radar", 38))
    case _ => None
  }

  /** nokiaLookupTable (PhoneNameResolver.cs:321-385), 44 rows. */
  function NokiaLookupTable(key: string): (entry: Option<PhoneName>)
    ensures entry.Some? ==> entry.value.osVersion in {7, 8} && entry.value.screenSize > 0
  {
    match key
    case "LUMIA 505" => Some(Device(7, "Lumia 505", 37))
    case "LUMIA 510" => Some(Device(7, "Lumia 510", 40))
    case "NOKIA 510" => Some(Device(7, "Lumia 510", 40))
    case "LUMIA 610" => Some(Device(7, "Lumia 610", 37))
    case "LUMIA 610 NFC" => Some(Device(7, "Lumia 610", 37).(comments := Some("NFC")))
    case "NOKIA 610" => Some(Device(7, "Lumia 610", 37))
    case "NOKIA 610C" => Some(Device(7, "Lumia 610", 37))
    case "LUMIA 620" => Some(Device(8, "Lumia 620", 38))
    case "RM-846" => Some(Device(8, "Lumia 620", 38))
    case "LUMIA 710" => Some(Device(7, "Lumia 710", 37))
    case "NOKIA 710" => Some(Device(7, "Lumia 710", 37))
    case "LUMIA 800" => Some(Device(7, "Lumia 800", 37))
    case "LUMIA 800C" => Some(Device(7, "Lumia 800", 37))
    case "NOKIA 800" => Some(Device(7, "Lumia 800", 37))
    case "NOKIA 800C" => Some(Device(7, "Lumia 800", 37).(comments := Some("China")))
    case "RM-878" => Some(Device(8, "Lumia 810", 43))
    case "RM-824" => Some(Device(8, "Lumia 820", 43))
    case "RM-825" => Some(Device(8, "Lumia 820", 43))
    case "RM-826" => Some(Device(8, "Lumia 820", 43))
    case "RM-845" => Some(Device(8, "Lumia 822", 37).(comments := Some("Verizon")))
    case "LUMIA 900" => Some(Device(7, "Lumia 900", 37))
    case "NOKIA 900" => Some(Device(7, "Lumia 900", 37))
    case "RM-820" => Some(Device(8, "Lumia 920", 45).(screenResolution := WXGA))
    case "RM-821" => Some(Device(8, "Lumia 920", 45).(screenResolution := WXGA))
    case "RM-822" => Some(Device(8, "Lumia 920", 45).(screenResolution := WXGA))
    case "RM-867" => Some(Device(8, "Lumia 920", 45).(screenResolution := WXGA, comments := Some("920T")))
    case "NOKIA 920" => Some(Device(8, "Lumia 920", 45).(screenResolution := WXGA))
    case "LUMIA 920" => Some(Device(8, "Lumia 920", 45).(screenResolution := WXGA))
    case "RM-914" => Some(Device(8, "Lumia 520", 40))
    case "RM-915" => Some(Device(8, "Lumia 520", 40))
    case "RM-913" => Some(Device(8, "Lumia 520", 40).(comments := Some("520T")))
    case "RM-917" => Some(Device(8, "Lumia 521", 40).(comments := Some("T-Mobile 520")))
    case "RM-885" => Some(Device(8, "Lumia 720", 43))
    case "RM-887" => Some(Device(8, "Lumia 720", 43).(comments := Some("China 720T")))
    case "RM-860" => Some(Device(8, "Lumia 928", 45).(screenResolution := WXGA))
    case "RM-892" => Some(Device(8, "Lumia 925", 45).(screenResolution := WXGA))
    case "RM-893" => Some(Device(8, "Lumia 925", 45).(screenResolution := WXGA))
    case "RM-910" => Some(Device(8, "Lumia 925", 45).(screenResolution := WXGA, comments := Some("China 925T")))
    case "RM-875" => Some(Device(8, "Lumia 1020", 45).(screenResolution := WXGA))
    case "RM-876" => Some(Device(8, "Lumia 1020", 45).(screenResolution := WXGA))
    case "RM-877" => Some(Device(8, "Lumia 1020", 45).(screenResolution := WXGA))
    case "RM-941" => Some(Device(8, "Lumia 625", 47))
    case "RM-942" => Some(Device(8, "Lumia 625", 47))
    case "RM-943" => Some(Device(8, "Lumia 625", 47))
    case _ => None
  }
}
