/**
 * What the resolver guarantees, stated over the functions of PhoneNameResolver (which the
 * resolver's methods are proved to compute).
 */
module ResolverProperties {
  import opened Wrappers
  import opened Text
  import opened CanonicalNames
  import opened LookupTables
  import opened PhoneNameResolver

  // ---------------------------------------------------------------------------------------
  // Prefix rules

  /** A key that no rule's prefix matches passes through the chain unchanged. */
  lemma {:induction false} ApplyRulesUnmatched(key: string, rules: seq<PrefixRule>)
    requires forall i :: 0 <= i < |rules| ==> !StartsWith(key, rules[i].prefix)
    ensures ApplyRules(key, rules) == key
    decreases |rules|
  {
    if rules != [] {
      ApplyRulesUnmatched(key, rules[1..]);
    }
  }

  /**
   * A key that some rule's prefix matches ends as the collapsed key of some rule: either an
   * earlier rule already rewrote it, or that rule itself does.
   */
  lemma {:induction false} ApplyRulesMatched(key: string, rules: seq<PrefixRule>, i: nat)
    requires i < |rules| && StartsWith(key, rules[i].prefix)
    ensures exists j :: 0 <= j < |rules| && ApplyRules(key, rules) == rules[j].collapsed
    decreases |rules|
  {
    var r := ApplyRules(key, rules);
    if StartsWith(key, rules[0].prefix) {
      var next := rules[0].collapsed;
      assert r == ApplyRules(next, rules[1..]);
      if r != next {
        var j :| 0 <= j < |rules[1..]| && r == rules[1..][j].collapsed;
        assert r == rules[j + 1].collapsed;
      }
    } else {
      ApplyRulesMatched(key, rules[1..], i - 1);
      var j :| 0 <= j < |rules[1..]| && r == rules[1..][j].collapsed;
      assert r == rules[j + 1].collapsed;
    }
  }

  /**
   * If every collapsed key is a fixed point of the chain, running the chain twice gives what
   * running it once gives.
   */
  lemma ApplyRulesIdempotent(key: string, rules: seq<PrefixRule>)
    requires forall i :: 0 <= i < |rules| ==> ApplyRules(rules[i].collapsed, rules) == rules[i].collapsed
    ensures ApplyRules(ApplyRules(key, rules), rules) == ApplyRules(key, rules)
  {
    var r := ApplyRules(key, rules);
    if r != key {
      var j :| 0 <= j < |rules| && r == rules[j].collapsed;
    }
  }

  /** The rule list each per-manufacturer resolver applies (Nokia's rule is not a prefix collapse). */
  function RulesOf(m: Manufacturer): seq<PrefixRule>
    requires m != Nokia
  {
    match m
    case Htc => HTC_RULES
    case Samsung => SAMSUNG_RULES
    case Lg => LG_RULES
  }

  /** LG: a model starting with "LG-C900" or "LG-E900" is looked up as that prefix; any other as itself. */
  lemma LgRules(normalized: string)
    ensures StartsWith(normalized, "LG-C900") ==> ApplyRules(normalized, LG_RULES) == "LG-C900"
    ensures StartsWith(normalized, "LG-E900") ==> ApplyRules(normalized, LG_RULES) == "LG-E900"
    ensures !StartsWith(normalized, "LG-C900") && !StartsWith(normalized, "LG-E900") ==>
              ApplyRules(normalized, LG_RULES) == normalized
  {
    assert ApplyRules(normalized, LG_RULES) ==
      ApplyRules(if StartsWith(normalized, "LG-C900") then "LG-C900" else normalized, LG_RULES[1..]);
  }

  /** Samsung: "GT-S7530…" is looked up as "GT-S7530", "SGH-I917…" as "SGH-I917", anything else as itself. */
  lemma SamsungRules(normalized: string)
    ensures StartsWith(normalized, "GT-S7530") ==> ApplyRules(normalized, SAMSUNG_RULES) == "GT-S7530"
    ensures StartsWith(normalized, "SGH-I917") ==> ApplyRules(normalized, SAMSUNG_RULES) == "SGH-I917"
    ensures !StartsWith(normalized, "GT-S7530") && !StartsWith(normalized, "SGH-I917") ==>
              ApplyRules(normalized, SAMSUNG_RULES) == normalized
  {
    assert ApplyRules(normalized, SAMSUNG_RULES) ==
      ApplyRules(if StartsWith(normalized, "GT-S7530") then "GT-S7530" else normalized, SAMSUNG_RULES[1..]);
  }

  /**
   * HTC: "A620…" is looked up as "A620"; "C625…" and "C620…" both as "C625", because the
   * third rule tests the key the first two left; anything else as itself.
   */
  lemma HtcRules(normalized: string)
    ensures StartsWith(normalized, "A620") ==> ApplyRules(normalized, HTC_RULES) == "A620"
    ensures StartsWith(normalized, "C625") || StartsWith(normalized, "C620") ==>
              ApplyRules(normalized, HTC_RULES) == "C625"
    ensures !StartsWith(normalized, "A620") && !StartsWith(normalized, "C625") && !StartsWith(normalized, "C620") ==>
              ApplyRules(normalized, HTC_RULES) == normalized
  {
    var k1 := if StartsWith(normalized, "A620") then "A620" else normalized;
    var k2 := if StartsWith(k1, "C625") then "C625" else k1;
    var k3 := if StartsWith(k2, "C620") then "C625" else k2;
    assert ApplyRules(normalized, HTC_RULES) == ApplyRules(k1, HTC_RULES[1..]);
    assert ApplyRules(k1, HTC_RULES[1..]) == ApplyRules(k2, HTC_RULES[2..]);
    assert ApplyRules(k2, HTC_RULES[2..]) == ApplyRules(k3, HTC_RULES[3..]) == k3;
    assert !StartsWith("A620", "C625") && !StartsWith("A620", "C620") by {
      assert "A620"[0] != "C625"[0];
    }
  }

  /** The HTC chain never produces "C620": a key that starts with it is rewritten by the last rule. */
  lemma HtcKeyIsNeverC620(normalized: string)
    ensures ApplyRules(normalized, HTC_RULES) != "C620"
  {
    HtcRules(normalized);
    if StartsWith(normalized, "A620") {
    } else if StartsWith(normalized, "C625") || StartsWith(normalized, "C620") {
    } else {
      assert normalized != "C620";
    }
  }

  /** Each chain's output is a fixed point of that chain: applying it again changes nothing. */
  lemma RulesIdempotent(m: Manufacturer, key: string)
    requires m != Nokia
    ensures ApplyRules(ApplyRules(key, RulesOf(m)), RulesOf(m)) == ApplyRules(key, RulesOf(m))
  {
    match m
    case Lg =>
      LgCollapsedKeysFixed();
      ApplyRulesIdempotent(key, LG_RULES);
    case Samsung =>
      SamsungCollapsedKeysFixed();
      ApplyRulesIdempotent(key, SAMSUNG_RULES);
    case Htc =>
      HtcCollapsedKeysFixed();
      ApplyRulesIdempotent(key, HTC_RULES);
  }

  lemma LgCollapsedKeysFixed()
    ensures forall i :: 0 <= i < |LG_RULES| ==> ApplyRules(LG_RULES[i].collapsed, LG_RULES) == LG_RULES[i].collapsed
  {
    LgRules("LG-C900");
    LgRules("LG-E900");
  }

  lemma SamsungCollapsedKeysFixed()
    ensures forall i :: 0 <= i < |SAMSUNG_RULES| ==> ApplyRules(SAMSUNG_RULES[i].collapsed, SAMSUNG_RULES) == SAMSUNG_RULES[i].collapsed
  {
    SamsungRules("GT-S7530");
    SamsungRules("SGH-I917");
  }

  lemma HtcCollapsedKeysFixed()
    ensures forall i :: 0 <= i < |HTC_RULES| ==> ApplyRules(HTC_RULES[i].collapsed, HTC_RULES) == HTC_RULES[i].collapsed
  {
    HtcRules("A620");
    HtcRules("C625");
  }

  // ---------------------------------------------------------------------------------------
  // The Nokia rule

  /**
   * A normalised Nokia model starting with "RM-" is looked up by its first six characters
   * and makes the resolver throw when it has fewer; any other model is looked up as itself.
   */
  lemma NokiaRule(normalized: string)
    ensures NokiaKey(normalized).Failure? <==> StartsWith(normalized, "RM-") && |normalized| < 6
    ensures StartsWith(normalized, "RM-") && 6 <= |normalized| ==> NokiaKey(normalized) == Success(normalized[..6])
    ensures !StartsWith(normalized, "RM-") ==> NokiaKey(normalized) == Success(normalized)
  {
  }

  /** `Resolve` throws exactly for a Nokia model that normalises to a string shorter than six starting with "RM-". */
  lemma ResolveThrowsExactly(manufacturer: string, model: string)
    ensures Resolution(manufacturer, model).Failure? <==>
              && ManufacturerOf(Normalize(manufacturer)) == Some(Nokia)
              && StartsWith(Normalize(model), "RM-")
              && |Normalize(model)| < 6
  {
    NokiaRule(Normalize(model));
  }

  // ---------------------------------------------------------------------------------------
  // The three outcomes

  /** An unknown manufacturer: unresolved, both canonical names are the raw inputs, no table is read. */
  lemma UnknownManufacturer(manufacturer: string, model: string)
    requires Normalize(manufacturer) !in {"NOKIA", "HTC", "SAMSUNG", "LG"}
    ensures Resolution(manufacturer, model).Success?
    ensures var r := Resolution(manufacturer, model).value;
      && !r.isResolved
      && r.reportedManufacturer == manufacturer && r.reportedModel == model
      && r.canonicalManufacturer == manufacturer && r.canonicalModel == model
      && r.comments == None && r.screenSize == 0 && r.osVersion == 0 && r.screenResolution == WVGA
  {
  }

  /**
   * A known manufacturer whose lookup key misses its table: unresolved, the canonical model
   * is the raw model, the canonical manufacturer is the resolver's constant.
   */
  lemma KnownManufacturerMiss(manufacturer: string, model: string, m: Manufacturer)
    requires ManufacturerOf(Normalize(manufacturer)) == Some(m)
    requires LookupKey(m, model).Success? && Table(m, LookupKey(m, model).value).None?
    ensures Resolution(manufacturer, model).Success?
    ensures var r := Resolution(manufacturer, model).value;
      && !r.isResolved
      && r.reportedManufacturer == manufacturer && r.reportedModel == model
      && r.canonicalManufacturer == Name(m) && r.canonicalModel == model
      && r.comments == None && r.screenSize == 0 && r.osVersion == 0 && r.screenResolution == WVGA
  {
  }

  /**
   * A hit: resolved, the canonical model and the metadata are the entry's, the canonical
   * manufacturer is the resolver's constant and the reported names are the raw inputs.
   */
  lemma KnownManufacturerHit(manufacturer: string, model: string, m: Manufacturer)
    requires ManufacturerOf(Normalize(manufacturer)) == Some(m)
    requires LookupKey(m, model).Success? && Table(m, LookupKey(m, model).value).Some?
    ensures Resolution(manufacturer, model).Success?
    ensures var r := Resolution(manufacturer, model).value;
      var entry := Table(m, LookupKey(m, model).value).value;
      && r.isResolved
      && r.reportedManufacturer == manufacturer && r.reportedModel == model
      && r.canonicalManufacturer == Name(m) && r.canonicalModel == entry.canonicalModel
      && r.comments == entry.comments && r.screenSize == entry.screenSize
      && r.osVersion == entry.osVersion && r.screenResolution == entry.screenResolution
  {
  }

  /** A result is resolved exactly when the manufacturer is known and its lookup key is in its table. */
  lemma ResolvedIffHit(manufacturer: string, model: string)
    requires Resolution(manufacturer, model).Success?
    ensures Resolution(manufacturer, model).value.isResolved <==>
              var m := ManufacturerOf(Normalize(manufacturer));
              m.Some? && Table(m.value, LookupKey(m.value, model).value).Some?
  {
  }

  /**
   * Every unresolved result reports and echoes the raw model and carries no metadata; its
   * canonical manufacturer is the raw input only when the manufacturer is unknown.
   */
  lemma UnresolvedShape(manufacturer: string, model: string)
    requires Resolution(manufacturer, model).Success? && !Resolution(manufacturer, model).value.isResolved
    ensures var r := Resolution(manufacturer, model).value;
      var m := ManufacturerOf(Normalize(manufacturer));
      && r.reportedManufacturer == manufacturer && r.reportedModel == model
      && r.canonicalModel == model
      && r.canonicalManufacturer == (if m.Some? then Name(m.value) else manufacturer)
      && r.comments == None && r.screenSize == 0 && r.osVersion == 0 && r.screenResolution == WVGA
  {
  }

  /** A resolved result names its manufacturer by the constant and has an OS version of 6, 7 or 8. */
  lemma ResolvedShape(manufacturer: string, model: string)
    requires Resolution(manufacturer, model).Success? && Resolution(manufacturer, model).value.isResolved
    ensures var r := Resolution(manufacturer, model).value;
      && ManufacturerOf(Normalize(manufacturer)).Some?
      && r.canonicalManufacturer == Name(ManufacturerOf(Normalize(manufacturer)).value)
      && r.osVersion in {6, 7, 8}
      && r.screenSize > 0
  {
    var m := ManufacturerOf(Normalize(manufacturer)).value;
    var entry := Table(m, LookupKey(m, model).value);
    assert entry.Some? && entry.value.osVersion in {6, 7, 8} && entry.value.screenSize > 0 by {
      match m
      case Nokia =>
      case Htc =>
      case Samsung =>
      case Lg =>
    }
  }

  // ---------------------------------------------------------------------------------------
  // Spelling of the inputs

  /** The strings `Normalize` leaves unchanged are exactly those with no lower-case letter and no white space at either end. */
  lemma NormalizeFixedPoints(s: string)
    ensures Normalize(s) == s <==> NoLower(s) && (|s| > 0 ==> !IsWhiteSpace(s[0]) && !IsWhiteSpace(s[|s| - 1]))
  {
    if NoLower(s) && (|s| > 0 ==> !IsWhiteSpace(s[0]) && !IsWhiteSpace(s[|s| - 1])) {
      NormalizeUnchanged(s);
    }
  }

  /** A string already upper-case and trimmed is its own normal form. */
  lemma NormalizeUnchanged(s: string)
    requires NoLower(s) && (|s| > 0 ==> !IsWhiteSpace(s[0]) && !IsWhiteSpace(s[|s| - 1]))
    ensures Normalize(s) == s
  {
    TrimUnpadded(s);
    ToUpperNoLower(s);
  }

  /** Normalising twice gives what normalising once gives. */
  lemma NormalizeIdempotent(s: string)
    ensures Normalize(Normalize(s)) == Normalize(s)
  {
    var t := Trim(s);
    var n := Normalize(s);
    if |n| > 0 {
      assert n[0] == UpperChar(t[0]) && n[|n| - 1] == UpperChar(t[|t| - 1]);
    }
    NormalizeFixedPoints(n);
  }

  /**
   * Two manufacturer spellings with one normalised form reach the same resolver and give the
   * same result, except that each reports its own raw manufacturer.
   */
  lemma ManufacturerSpellingIrrelevant(manufacturer1: string, manufacturer2: string, model: string)
    requires Normalize(manufacturer1) == Normalize(manufacturer2)
    requires Normalize(manufacturer1) in {"NOKIA", "HTC", "SAMSUNG", "LG"}
    ensures Resolution(manufacturer1, model).Success? == Resolution(manufacturer2, model).Success?
    ensures Resolution(manufacturer1, model).Success? ==>
              Resolution(manufacturer1, model).value.(reportedManufacturer := manufacturer2)
              == Resolution(manufacturer2, model).value
  {
  }

  /**
   * Two model spellings with one normalised form are resolved alike; where they hit, the
   * results differ only in the reported model.
   */
  lemma ModelSpellingIrrelevantOnHit(manufacturer: string, model1: string, model2: string)
    requires Normalize(model1) == Normalize(model2)
    requires Normalize(manufacturer) in {"NOKIA", "HTC", "SAMSUNG", "LG"}
    ensures Resolution(manufacturer, model1).Success? == Resolution(manufacturer, model2).Success?
    ensures Resolution(manufacturer, model1).Success? ==>
              && Resolution(manufacturer, model1).value.isResolved == Resolution(manufacturer, model2).value.isResolved
              && (Resolution(manufacturer, model1).value.isResolved ==>
                    Resolution(manufacturer, model1).value.(reportedModel := model2)
                    == Resolution(manufacturer, model2).value)
  {
    var m := ManufacturerOf(Normalize(manufacturer)).value;
    LookupKeyOfNormalForm(m, model1, model2);
    if LookupKey(m, model1).Success? {
      if Table(m, LookupKey(m, model1).value).Some? {
        KnownManufacturerHit(manufacturer, model1, m);
        KnownManufacturerHit(manufacturer, model2, m);
      } else {
        KnownManufacturerMiss(manufacturer, model1, m);
        KnownManufacturerMiss(manufacturer, model2, m);
      }
    }
  }

  /** The lookup key depends on the model only through its normal form. */
  lemma LookupKeyOfNormalForm(m: Manufacturer, model1: string, model2: string)
    requires Normalize(model1) == Normalize(model2)
    ensures LookupKey(m, model1) == LookupKey(m, model2)
  {
  }

  // ---------------------------------------------------------------------------------------
  // Which table rows can be reached

  /** Every lookup key is free of lower-case letters. */
  lemma LookupKeyHasNoLower(m: Manufacturer, model: string)
    requires LookupKey(m, model).Success?
    ensures NoLower(LookupKey(m, model).value)
  {
    var normalized := Normalize(model);
    if m == Nokia {
      NokiaKeyHasNoLower(normalized);
    } else {
      CollapsedKeysHaveNoLower(m);
      ApplyRulesKeepsNoLower(normalized, RulesOf(m));
      assert LookupKey(m, model).value == ApplyRules(normalized, RulesOf(m));
    }
  }

  lemma NokiaKeyHasNoLower(normalized: string)
    requires NoLower(normalized) && NokiaKey(normalized).Success?
    ensures NoLower(NokiaKey(normalized).value)
  {
    var key := NokiaKey(normalized).value;
    if StartsWith(normalized, "RM-") {
      assert forall i :: 0 <= i < |key| ==> key[i] == normalized[i];
    }
  }

  /** A chain applied to a key without lower-case letters, whose collapsed keys have none either, yields such a key. */
  lemma ApplyRulesKeepsNoLower(key: string, rules: seq<PrefixRule>)
    requires NoLower(key)
    requires forall i :: 0 <= i < |rules| ==> NoLower(rules[i].collapsed)
    ensures NoLower(ApplyRules(key, rules))
  {
    var r := ApplyRules(key, rules);
    if r != key {
      var j :| 0 <= j < |rules| && r == rules[j].collapsed;
    }
  }

  lemma CollapsedKeysHaveNoLower(m: Manufacturer)
    requires m != Nokia
    ensures forall i :: 0 <= i < |RulesOf(m)| ==> NoLower(RulesOf(m)[i].collapsed)
  {
  }

  /** The HTC row "Schubert T9292" exists but no model reaches it: its key has lower-case letters. */
  lemma SchubertRowUnreachable(model: string)
    ensures HtcLookupTable("Schubert T9292").Some?
    ensures LookupKey(Htc, model) != Success("Schubert T9292")
  {
    SchubertRow();
    LookupKeyHasNoLower(Htc, model);
    SchubertKeyHasLower();
  }

  lemma SchubertKeyHasLower()
    ensures !NoLower("Schubert T9292")
  {
    assert IsLower("Schubert T9292"[1]);
  }

  /** The HTC row "Schubert T9292": the HD7, Windows Phone 7, 4.3 inches, WVGA. */
  lemma SchubertRow()
    ensures HtcLookupTable("Schubert T9292") == Some(PhoneName("", "", "", "HD7", None, false, 43, 7, WVGA))
  {
  }

  /** The HTC row "C620" exists but no model reaches it: such models are looked up as "C625". */
  lemma C620RowUnreachable(model: string)
    ensures HtcLookupTable("C620").Some?
    ensures LookupKey(Htc, model) != Success("C620")
  {
    C620Row();
    HtcKeyIsNeverC620(Normalize(model));
  }

  /** The HTC row "C620": the 8X, Windows Phone 8, 4.3 inches, 720p. */
  lemma C620Row()
    ensures HtcLookupTable("C620") == Some(PhoneName("", "", "", "8X", None, false, 43, 8, HD720))
  {
  }

  /**
   * For HTC, Samsung and LG, a model whose normalised form starts with any rule's prefix is
   * always resolved: every collapsed key is a row of its table.
   */
  lemma PrefixMatchResolves(manufacturer: string, model: string, m: Manufacturer, i: nat)
    requires ManufacturerOf(Normalize(manufacturer)) == Some(m) && m != Nokia
    requires i < |RulesOf(m)| && StartsWith(Normalize(model), RulesOf(m)[i].prefix)
    ensures Resolution(manufacturer, model).Success? && Resolution(manufacturer, model).value.isResolved
  {
    ApplyRulesMatched(Normalize(model), RulesOf(m), i);
    var j :| 0 <= j < |RulesOf(m)| && LookupKey(m, model).value == RulesOf(m)[j].collapsed;
    CollapsedKeyInTable(m, j);
  }

  /** Every collapsed key of a rule is a row of that manufacturer's table. */
  lemma CollapsedKeyInTable(m: Manufacturer, j: nat)
    requires m != Nokia && j < |RulesOf(m)|
    ensures Table(m, RulesOf(m)[j].collapsed).Some?
  {
    match m
    case Htc =>
      A620Row();
      C625Row();
    case Samsung =>
      GtS7530Row();
      SghI917Row();
    case Lg =>
      LgC900Row();
      LgE900Row();
  }

  /** The LG row "LG-C900": the Optimus 7Q/Quantum, Windows Phone 7, 3.5 inches, WVGA. */
  lemma LgC900Row()
    ensures Table(Lg, "LG-C900") == Some(PhoneName("", "", "", "Optimus 7Q/Quantum", None, false, 35, 7, WVGA))
  {
  }

  /** The LG row "LG-E900": the Optimus 7, Windows Phone 7, 3.8 inches, WVGA. */
  lemma LgE900Row()
    ensures Table(Lg, "LG-E900") == Some(PhoneName("", "", "", "Optimus 7", None, false, 38, 7, WVGA))
  {
  }

  /** The Samsung row "GT-S7530": the Omnia 7, Windows Phone 7, 4 inches, WVGA. */
  lemma GtS7530Row()
    ensures Table(Samsung, "GT-S7530") == Some(PhoneName("", "", "", "Omnia 7", None, false, 40, 7, WVGA))
  {
  }

  /** The Samsung row "SGH-I917": the Focus, Windows Phone 7, 4 inches, WVGA. */
  lemma SghI917Row()
    ensures Table(Samsung, "SGH-I917") == Some(PhoneName("", "", "", "Focus", None, false, 40, 7, WVGA))
  {
  }

  /** The HTC row "A620": the 8S, Windows Phone 8, 4 inches, WVGA. */
  lemma A620Row()
    ensures Table(Htc, "A620") == Some(PhoneName("", "", "", "8S", None, false, 40, 8, WVGA))
  {
  }

  // ---------------------------------------------------------------------------------------
  // Worked cases

  /** "RM-820-XYZ" is cut to "RM-820" and resolves to the Lumia 920, a WXGA Windows Phone 8 device. */
  lemma NokiaRm820()
    ensures Resolution("NOKIA", "RM-820-XYZ")
            == Success(PhoneName("NOKIA", "RM-820-XYZ", "NOKIA", "Lumia 920", None, true, 45, 8, WXGA))
  {
    UpperNokia();
    Rm820Key();
    Rm820Row();
  }

  lemma UpperNokia()
    ensures ManufacturerOf(Normalize("NOKIA")) == Some(Nokia)
  {
    NormalizeUnchanged("NOKIA");
  }

  lemma Rm820Key()
    ensures LookupKey(Nokia, "RM-820-XYZ") == Success("RM-820")
  {
    NormalizeUnchanged("RM-820-XYZ");
    Rm820Cut();
  }

  lemma Rm820Cut()
    ensures NokiaKey("RM-820-XYZ") == Success("RM-820")
  {
    assert "RM-820-XYZ"[..3] == "RM-";
    assert "RM-820-XYZ"[0..6] == "RM-820";
  }

  lemma Rm820Row()
    ensures Table(Nokia, "RM-820") == Some(PhoneName("", "", "", "Lumia 920", None, false, 45, 8, WXGA))
  {
  }

  /** A Nokia model "rm-8" normalises to "RM-8", shorter than six characters, and the resolver throws. */
  lemma NokiaShortRmThrows()
    ensures Resolution("Nokia", "rm-8") == Failure(ArgumentOutOfRange)
  {
    MixedCaseNokia();
    ShortRmKey();
  }

  lemma MixedCaseNokia()
    ensures ManufacturerOf(Normalize("Nokia")) == Some(Nokia)
  {
    TrimUnpadded("Nokia");
    assert ToUpper("Nokia") == "NOKIA";
  }

  lemma ShortRmKey()
    ensures LookupKey(Nokia, "rm-8") == Failure(ArgumentOutOfRange)
  {
    TrimUnpadded("rm-8");
    assert ToUpper("rm-8") == "RM-8";
    assert "RM-8"[..3] == "RM-";
  }

  /** " nokia " / " lumia 920 " and "NOKIA" / "LUMIA 920" give the same canonical names and metadata. */
  lemma SpacedLowerCaseNokia()
    ensures Resolution(" nokia ", " lumia 920 ").Success? && Resolution("NOKIA", "LUMIA 920").Success?
    ensures var r1 := Resolution(" nokia ", " lumia 920 ").value;
      var r2 := Resolution("NOKIA", "LUMIA 920").value;
      && r1.isResolved && r1.canonicalModel == "Lumia 920"
      && r1.(reportedManufacturer := "NOKIA", reportedModel := "LUMIA 920") == r2
  {
    UpperNokia();
    SpacedNokia();
    Lumia920Keys();
    Lumia920Row();
  }

  lemma SpacedNokia()
    ensures ManufacturerOf(Normalize(" nokia ")) == Some(Nokia)
  {
    TrimSpaced("nokia");
    UpperNokiaLetters();
    assert Normalize(" nokia ") == "NOKIA";
  }

  lemma UpperNokiaLetters()
    ensures ToUpper("nokia") == "NOKIA"
  {
  }

  lemma Lumia920Keys()
    ensures LookupKey(Nokia, " lumia 920 ") == Success("LUMIA 920")
    ensures LookupKey(Nokia, "LUMIA 920") == Success("LUMIA 920")
  {
    SpacedLumia920();
    NormalizeUnchanged("LUMIA 920");
    Lumia920Uncut();
  }

  lemma SpacedLumia920()
    ensures Normalize(" lumia 920 ") == "LUMIA 920"
  {
    TrimSpaced("lumia 920");
    UpperLumia920Letters();
    assert Normalize(" lumia 920 ") == "LUMIA 920";
  }

  lemma UpperLumia920Letters()
    ensures ToUpper("lumia 920") == "LUMIA 920"
  {
  }

  lemma Lumia920Uncut()
    ensures NokiaKey("LUMIA 920") == Success("LUMIA 920")
  {
    assert "LUMIA 920"[0] != "RM-"[0];
  }

  lemma Lumia920Row()
    ensures Table(Nokia, "LUMIA 920") == Some(PhoneName("", "", "", "Lumia 920", None, false, 45, 8, WXGA))
  {
  }

  /** "C620-FOO" is collapsed to "C620", then to "C625", and resolves to the 8X (720p). */
  lemma HtcC620Variant()
    ensures Resolution("HTC", "C620-FOO").Success?
    ensures var r := Resolution("HTC", "C620-FOO").value;
      r.isResolved && r.canonicalModel == "8X" && r.screenResolution == HD720 && r.osVersion == 8
  {
    UpperHtc();
    C620VariantKey();
    C625Row();
  }

  lemma UpperHtc()
    ensures ManufacturerOf(Normalize("HTC")) == Some(Htc)
  {
    NormalizeUnchanged("HTC");
  }

  lemma C620VariantKey()
    ensures LookupKey(Htc, "C620-FOO") == Success("C625")
  {
    NormalizeUnchanged("C620-FOO");
    C620VariantCollapse();
  }

  lemma C620VariantCollapse()
    ensures ApplyRules("C620-FOO", HTC_RULES) == "C625"
  {
    assert "C620-FOO"[..4] == "C620";
    HtcRules("C620-FOO");
  }

  lemma C625Row()
    ensures Table(Htc, "C625") == Some(PhoneName("", "", "", "8X", None, false, 43, 8, HD720))
  {
  }

  /**
   * A Samsung miss written as "Samsung": unresolved, the canonical model is the raw model
   * and the canonical manufacturer is "SAMSUNG", not the raw "Samsung".
   */
  lemma SamsungMiss()
    ensures Resolution("Samsung", "gt-unknown-999")
            == Success(PhoneName("Samsung", "gt-unknown-999", "SAMSUNG", "gt-unknown-999", None, false, 0, 0, WVGA))
  {
    MixedCaseSamsung();
    UnknownSamsungKey();
    UnknownSamsungRow();
  }

  lemma MixedCaseSamsung()
    ensures ManufacturerOf(Normalize("Samsung")) == Some(Samsung)
  {
    TrimUnpadded("Samsung");
    assert ToUpper("Samsung") == "SAMSUNG";
  }

  lemma UnknownSamsungKey()
    ensures LookupKey(Samsung, "gt-unknown-999") == Success("GT-UNKNOWN-999")
  {
    LowerUnknownSamsung();
    UnknownSamsungUncollapsed();
  }

  lemma LowerUnknownSamsung()
    ensures Normalize("gt-unknown-999") == "GT-UNKNOWN-999"
  {
    TrimUnpadded("gt-unknown-999");
    UpperUnknownSamsungLetters();
  }

  lemma UpperUnknownSamsungLetters()
    ensures ToUpper("gt-unknown-999") == "GT-UNKNOWN-999"
  {
  }

  lemma UnknownSamsungUncollapsed()
    ensures ApplyRules("GT-UNKNOWN-999", SAMSUNG_RULES) == "GT-UNKNOWN-999"
  {
    assert !StartsWith("GT-UNKNOWN-999", "GT-S7530") by {
      assert "GT-UNKNOWN-999"[3] != "GT-S7530"[3];
    }
    assert !StartsWith("GT-UNKNOWN-999", "SGH-I917") by {
      assert "GT-UNKNOWN-999"[1] != "SGH-I917"[1];
    }
    SamsungRules("GT-UNKNOWN-999");
  }

  lemma UnknownSamsungRow()
    ensures Table(Samsung, "GT-UNKNOWN-999").None?
  {
  }
}
