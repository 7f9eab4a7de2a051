# PhoneNameResolver in Dafny

A model of `Ailon.WP.Utils.PhoneNameResolver`. This resolver turns the manufacturer and
model strings a Windows Phone reports about itself into a `CanonicalPhoneName`. That record
holds:

- the reported strings as they came in;
- a canonical manufacturer and model;
- whether the model was recognised (`IsResolved`);
- the device metadata stored with the model: comments, screen size, OS version and
  screen-resolution class.

`Resolve` trims and upper-cases the manufacturer. It then dispatches on the result:

- NOKIA, HTC, SAMSUNG and LG each go to their own resolver;
- any other manufacturer gives an unresolved record that echoes both raw inputs.

A per-manufacturer resolver works in three steps:

1. It normalises the model the same way, and starts from an unresolved record. That record
   holds the raw inputs and the manufacturer's fixed name (for example "SAMSUNG").
2. It rewrites a lookup key through that manufacturer's ordered prefix rules. Each rule tests
   the key as the rules before it left it.
3. `Lookup` copies a hit from the manufacturer's static alias table into the record and marks
   it resolved.

The modules:

- `Text` models the .NET string calls the resolver uses: `Trim`, `ToUpper`, `StartsWith` and
  `Substring`.
- `CanonicalNames` holds the `ScreenResolution` classes and `PhoneName`, the value of one
  record. It also holds the mutable class `CanonicalPhoneName`, with its two constructors and
  `FullCanonicalName`.
- `LookupTables` holds the four alias tables, row for row, in the source's order. Each table
  is written as the function from a key to the stored record. The source only reads a table
  through `TryGetValue`, so nothing else about a table is used. A table's keys are distinct:
  Dafny refuses a `match` with a repeated case, just as the dictionary initialiser throws on a
  duplicate key.
- `PhoneNameResolver` holds two layers:
  - the functions that say what each step yields (`Normalize`, `ApplyRules`, `NokiaKey`,
    `LookupKey`, `AfterLookup`, `ResolutionBy`, `Resolution`);
  - the methods that follow the source's statements (`Lookup`, `ResolveLg`, `ResolveSamsung`,
    `ResolveHtc`, `ResolveNokia`, `Resolve`). Each method is proved to compute its function.
- `ResolverProperties` proves what the resolver guarantees, over those functions.

Two behaviours of the code are worth stating up front:

- **`Resolve` is not total.** The Nokia rule calls `Substring(0, 6)`
  (PhoneNameResolver.cs:175-177). That call throws for a normalised model such as "RM-8",
  which starts with "RM-" and is shorter than six characters. Here that outcome is
  `Failure(ArgumentOutOfRange)`, and `ResolveThrowsExactly` characterises it.
- **The canonical manufacturer on a miss.** On a known-manufacturer miss, `CanonicalManufacturer`
  is the resolver's constant, not the raw manufacturer (PhoneNameResolver.cs:71, 102, 133,
  169). Only an unknown manufacturer is echoed raw. See `KnownManufacturerMiss`,
  `UnresolvedShape` and `SamsungMiss`.

## Model

| member | source | states |
|---|---|---|
| `Text.ToUpper` | PhoneNameResolver.cs:24 | Upper-casing keeps the length and leaves no lower-case letter; each lower-case ASCII letter becomes its upper-case letter and every other character is kept |
| `Text.Trim` | PhoneNameResolver.cs:24 | The result is the slice of the input between its leading and trailing white space; it neither starts nor ends with white space, and only white space follows it |
| `Text.Substring` | PhoneNameResolver.cs:177 | Succeeds exactly when the range lies inside the string; the piece has the requested length and puts the string back together with what precedes and follows it |
| `Text.StartsWith` | PhoneNameResolver.cs:141-151 | A string starts with a prefix exactly when it is that prefix followed by some rest (every prefix test of the resolver, here the HTC rules, and likewise :79, :84, :110, :115 and :175) |
| `Text.TrimUnpadded` | PhoneNameResolver.cs:24 | Trimming a string with no white space at either end leaves it unchanged |
| `Text.ToUpperNoLower` | PhoneNameResolver.cs:24 | Upper-casing a string without lower-case letters leaves it unchanged |
| `Text.TrimSpaced` | PhoneNameResolver.cs:24 | Trimming removes exactly one space of padding on each side |
| `CanonicalNames.WithOsVersion` | PhoneNameResolver.cs:409-416 | The record built from an OS version carries that version, the WVGA class, no comment, size 0, and is unresolved |
| `CanonicalNames.CanonicalPhoneName.constructor` | PhoneNameResolver.cs:38-44 | An initialised record holds the given reported and canonical names and is otherwise blank and unresolved |
| `CanonicalNames.CanonicalPhoneName.FromOsVersion` | PhoneNameResolver.cs:409-416 | The object's fields equal `WithOsVersion(osVersion)` |
| `CanonicalNames.CanonicalPhoneName.FullCanonicalName` | PhoneNameResolver.cs:400-403 | The full name splits back into the canonical manufacturer, one space and the canonical model |
| `LookupTables.Device` | PhoneNameResolver.cs:188 | A row's record has the row's OS version, model and size, the WVGA class and no comment |
| `LookupTables.LgLookupTable` | PhoneNameResolver.cs:185-195 | Every LG row is a Windows Phone 7 device with a positive screen size |
| `LookupTables.SamsungLookupTable` | PhoneNameResolver.cs:197-232 | Every Samsung row is a Windows Phone 7 or 8 device with a positive screen size |
| `LookupTables.HtcLookupTable` | PhoneNameResolver.cs:234-319 | Every HTC row is a Windows Phone 6, 7 or 8 device with a positive screen size |
| `LookupTables.NokiaLookupTable` | PhoneNameResolver.cs:321-385 | Every Nokia row is a Windows Phone 7 or 8 device with a positive screen size |
| `PhoneNameResolver.Normalize` | PhoneNameResolver.cs:24 | A normalised string has no lower-case letters and is no longer than the input |
| `PhoneNameResolver.ManufacturerOf` | PhoneNameResolver.cs:26-45 | A manufacturer is recognised exactly when its normal form is NOKIA, HTC, SAMSUNG or LG, and its name is that form |
| `PhoneNameResolver.ApplyRules` | PhoneNameResolver.cs:139-154 | The rewritten key is the original key or the collapsed key of one of the rules |
| `PhoneNameResolver.NokiaKey` | PhoneNameResolver.cs:174-178 | The Nokia lookup key is always a prefix of the normalised model, and the rule can fail only for a model starting with "RM-" |
| `PhoneNameResolver.LookupKey` | PhoneNameResolver.cs:163-178 | The key each resolver looks up (here Nokia's; likewise :65-87, :96-118 and :127-154). Only the Nokia rule can fail; every key looked up is a prefix of the normalised model or one of the six collapsed keys A620, C625, GT-S7530, SGH-I917, LG-C900, LG-E900 |
| `PhoneNameResolver.Seed` | PhoneNameResolver.cs:67-74 | The initialiser each resolver starts from (likewise :98-105, :129-136 and :165-172). The record a resolver starts from is unresolved, has no comment, size 0 and OS version 0, holds the reported names as given, the resolver's constant manufacturer and the raw model as canonical model |
| `PhoneNameResolver.ResolutionBy` | PhoneNameResolver.cs:161-183 | What a per-manufacturer resolver returns (here Nokia's; likewise :63-92, :94-123 and :125-159). Only the Nokia resolver can fail; a result keeps both reported strings and names the resolver's constant as its canonical manufacturer |
| `PhoneNameResolver.Resolution` | PhoneNameResolver.cs:22-47 | A resolved or unresolved record always carries the two reported strings as given, and resolving can fail only when the manufacturer normalises to NOKIA |
| `PhoneNameResolver.AfterLookup` | PhoneNameResolver.cs:49-61 | On a hit, the record takes the entry's model, comments, size, OS version and class and becomes resolved, keeping the reported names and the canonical manufacturer; on a miss, nothing changes |
| `PhoneNameResolver.Lookup` | PhoneNameResolver.cs:49-61 | The result object's new fields are `AfterLookup` of the table's answer and its old fields |
| `PhoneNameResolver.ResolveLg` | PhoneNameResolver.cs:63-92 | Returns a fresh record equal to the LG resolution of the inputs |
| `PhoneNameResolver.ResolveSamsung` | PhoneNameResolver.cs:94-123 | Returns a fresh record equal to the Samsung resolution of the inputs |
| `PhoneNameResolver.ResolveHtc` | PhoneNameResolver.cs:125-159 | Returns a fresh record equal to the HTC resolution, the three rules applied to the progressively updated key |
| `PhoneNameResolver.ResolveNokia` | PhoneNameResolver.cs:161-183 | Fails exactly when the Nokia resolution fails; otherwise returns a fresh record equal to it |
| `PhoneNameResolver.Resolve` | PhoneNameResolver.cs:22-47 | Fails exactly when the resolution fails; otherwise returns a fresh record equal to it |
| `ResolverProperties.ApplyRulesUnmatched` | PhoneNameResolver.cs:139-154 | A key that no rule's prefix matches passes through the chain unchanged |
| `ResolverProperties.ApplyRulesMatched` | PhoneNameResolver.cs:139-154 | A key that some rule's prefix matches always ends as one of the rules' collapsed keys |
| `ResolverProperties.ApplyRulesIdempotent` | PhoneNameResolver.cs:139-154 | If every collapsed key is a fixed point of the chain, applying the chain twice equals applying it once |
| `ResolverProperties.LgRules` | PhoneNameResolver.cs:77-87 | "LG-C900…" is looked up as "LG-C900", "LG-E900…" as "LG-E900", and any other model as itself |
| `ResolverProperties.SamsungRules` | PhoneNameResolver.cs:108-118 | "GT-S7530…" is looked up as "GT-S7530", "SGH-I917…" as "SGH-I917", and any other model as itself |
| `ResolverProperties.HtcRules` | PhoneNameResolver.cs:139-154 | "A620…" is looked up as "A620", "C625…" and "C620…" as "C625", and any other model as itself |
| `ResolverProperties.HtcKeyIsNeverC620` | PhoneNameResolver.cs:146-154 | The HTC chain never yields the key "C620" |
| `ResolverProperties.RulesIdempotent` | PhoneNameResolver.cs:77-154 | Each of the LG, Samsung and HTC chains leaves its own output unchanged |
| `ResolverProperties.NokiaRule` | PhoneNameResolver.cs:174-178 | An "RM-" model fails exactly when shorter than six characters and is otherwise looked up by its first six; any other model is looked up as itself |
| `ResolverProperties.ResolveThrowsExactly` | PhoneNameResolver.cs:161-180 | Resolution fails exactly for a Nokia manufacturer with a normalised model that starts with "RM-" and is shorter than six characters |
| `ResolverProperties.UnknownManufacturer` | PhoneNameResolver.cs:36-44 | For an unrecognised manufacturer, the record is unresolved, both reported and both canonical names are the raw inputs, and it carries no metadata |
| `ResolverProperties.KnownManufacturerMiss` | PhoneNameResolver.cs:94-121 | On a table miss, the record is unresolved, the canonical model is the raw model, the canonical manufacturer is the constant, and the reported names are raw |
| `ResolverProperties.KnownManufacturerHit` | PhoneNameResolver.cs:49-61 | On a hit, the record is resolved with the entry's model and metadata, the constant manufacturer, and the raw reported names |
| `ResolverProperties.ResolvedIffHit` | PhoneNameResolver.cs:22-61 | A record is resolved exactly when the manufacturer is recognised and its lookup key is a row of its table |
| `ResolverProperties.UnresolvedShape` | PhoneNameResolver.cs:22-47 | Every unresolved record echoes the raw model, carries no metadata, and names the raw manufacturer only when it was not recognised |
| `ResolverProperties.ResolvedShape` | PhoneNameResolver.cs:185-385 | A resolved record has a recognised manufacturer's constant name, OS version 6, 7 or 8, and a positive screen size |
| `ResolverProperties.NormalizeFixedPoints` | PhoneNameResolver.cs:24 | A string is its own normal form exactly when it has no lower-case letter and no white space at either end |
| `ResolverProperties.NormalizeIdempotent` | PhoneNameResolver.cs:24 | Normalising twice equals normalising once |
| `ResolverProperties.NormalizeUnchanged` | PhoneNameResolver.cs:24 | An upper-case, trimmed string is its own normal form |
| `ResolverProperties.ManufacturerSpellingIrrelevant` | PhoneNameResolver.cs:24-35 | Two recognised manufacturer spellings with one normal form give the same outcome, differing only in the reported manufacturer |
| `ResolverProperties.ModelSpellingIrrelevantOnHit` | PhoneNameResolver.cs:65-89 | Two model spellings with one normal form are resolved alike, and on a hit they differ only in the reported model |
| `ResolverProperties.LookupKeyHasNoLower` | PhoneNameResolver.cs:65-180 | No lookup key contains a lower-case letter |
| `ResolverProperties.SchubertRowUnreachable` | PhoneNameResolver.cs:273 | The HTC row "Schubert T9292" exists, but no model is ever looked up under that key |
| `ResolverProperties.C620RowUnreachable` | PhoneNameResolver.cs:293 | The HTC row "C620" exists, but no model is ever looked up under that key |
| `ResolverProperties.PrefixMatchResolves` | PhoneNameResolver.cs:77-156 | An LG, Samsung or HTC model whose normal form starts with a rule's prefix is always resolved |
| `ResolverProperties.CollapsedKeyInTable` | PhoneNameResolver.cs:185-319 | Every collapsed key of the LG, Samsung and HTC rules is a row of that manufacturer's table |
| `ResolverProperties.LgC900Row` | PhoneNameResolver.cs:188 | The LG key "LG-C900" holds the Optimus 7Q/Quantum, Windows Phone 7, 3.5 inches, WVGA |
| `ResolverProperties.LgE900Row` | PhoneNameResolver.cs:191 | The LG key "LG-E900" holds the Optimus 7, Windows Phone 7, 3.8 inches, WVGA |
| `ResolverProperties.GtS7530Row` | PhoneNameResolver.cs:209 | The Samsung key "GT-S7530" holds the Omnia 7, Windows Phone 7, 4 inches, WVGA |
| `ResolverProperties.SghI917Row` | PhoneNameResolver.cs:213 | The Samsung key "SGH-I917" holds the Focus, Windows Phone 7, 4 inches, WVGA |
| `ResolverProperties.A620Row` | PhoneNameResolver.cs:289 | The HTC key "A620" holds the 8S, Windows Phone 8, 4 inches, WVGA |
| `ResolverProperties.C620Row` | PhoneNameResolver.cs:293 | The HTC key "C620" holds the 8X, Windows Phone 8, 4.3 inches, 720p |
| `ResolverProperties.C625Row` | PhoneNameResolver.cs:294 | The HTC key "C625" holds the 8X, Windows Phone 8, 4.3 inches, 720p |
| `ResolverProperties.SchubertRow` | PhoneNameResolver.cs:273 | The HTC key "Schubert T9292" holds the HD7, Windows Phone 7, 4.3 inches, WVGA |
| `ResolverProperties.Rm820Row` | PhoneNameResolver.cs:356 | The Nokia key "RM-820" holds the Lumia 920, Windows Phone 8, 4.5 inches, WXGA |
| `ResolverProperties.Lumia920Row` | PhoneNameResolver.cs:361 | The Nokia key "LUMIA 920" holds the Lumia 920, Windows Phone 8, 4.5 inches, WXGA |
| `ResolverProperties.NokiaRm820` | PhoneNameResolver.cs:356 | ("NOKIA", "RM-820-XYZ") resolves to a Lumia 920, Windows Phone 8, 4.5 inches, WXGA |
| `ResolverProperties.NokiaShortRmThrows` | PhoneNameResolver.cs:175-177 | ("Nokia", "rm-8") fails with an out-of-range exception |
| `ResolverProperties.SpacedLowerCaseNokia` | PhoneNameResolver.cs:361 | (" nokia ", " lumia 920 ") and ("NOKIA", "LUMIA 920") both resolve to a Lumia 920 and differ only in the reported names |
| `ResolverProperties.HtcC620Variant` | PhoneNameResolver.cs:151-153 | ("HTC", "C620-FOO") resolves to the 8X, Windows Phone 8, 720p |
| `ResolverProperties.SamsungMiss` | PhoneNameResolver.cs:94-121 | ("Samsung", "gt-unknown-999") is unresolved, keeps the raw model as canonical, and names the manufacturer "SAMSUNG" |

## Left out

- Text.ToUpper: models ASCII upper-casing only. .NET's `ToUpper()` follows the current culture (the Turkish dotted and dotless i, for instance), and culture data is outside the model.
- Text.StartsWith: compares ordinally, character by character. Every `StartsWith` call in the resolver (PhoneNameResolver.cs:79, 84, 110, 115, 141, 146, 151, 175) passes no comparison type, so .NET compares by the current culture. That comparison skips ignorable code points such as the soft hyphen U+00AD; the model does not skip them. So NokiaRule, ResolveThrowsExactly, LgRules, SamsungRules, HtcRules, HtcKeyIsNeverC620, ApplyRulesUnmatched, ApplyRulesMatched and PrefixMatchResolves describe the ordinal comparison. For a model containing an ignorable character, .NET can differ. ("NOKIA", "\u00ADRM-8") throws in .NET but succeeds here. ("HTC", "\u00ADC620") resolves to the 8X in .NET but misses here.
- Text.Substring: lengths and indices count Unicode scalar values, not the UTF-16 code units .NET's `Length` and `Substring` count. A character outside the Basic Multilingual Plane is one character here and two in .NET. So NokiaKey, NokiaRule, ResolveThrowsExactly, ResolveNokia and Resolve state the six-character cut of PhoneNameResolver.cs:177 in scalar values. For example, ("NOKIA", "RM-\U{1F600}Z") normalises to a model of 6 code units: .NET cuts it, misses the table and returns an unresolved record, while here it has 5 characters and gives `Failure(ArgumentOutOfRange)`. A cut that splits a surrogate pair leaves a lone surrogate in .NET, which a Dafny string cannot hold.
- NokiaRule: "shorter than six" counts Unicode scalar values, not UTF-16 code units (see Text.Substring). For a model containing characters outside the Basic Multilingual Plane, .NET's failure condition differs.
- ResolveThrowsExactly: the failure set is exact when lengths count Unicode scalar values (see Text.Substring). ("NOKIA", "RM-\U{1F600}Z") fails here but returns normally in .NET.
- Text.Trim: removes only the six ASCII white-space characters, not the whole Unicode white-space set .NET uses.
- Null strings are not modelled. A null manufacturer or model makes `Trim()` throw a null-reference exception, a runtime artefact; inputs are taken as non-null. A record's string fields that C# leaves null hold "" here, and a null `Comments` is `None`.
- `ScreenSize` is a `double` in C#. It is only ever copied, so it is held as an integer number of tenths of an inch (4.3 becomes 43); no floating-point behaviour is modelled.
- The `_720p` resolution class is named `HD720`, because a Dafny constructor cannot start with an underscore.
- A table row's record also has reported and canonical-manufacturer fields, which `Lookup` never reads. They are left blank, as the row's constructor leaves them.
- Rows are transcribed as written. Only the rows the properties touch have their own lemmas stating their full contents: RM-820, LUMIA 920, A620, C620, C625, GT-S7530, SGH-I917, LG-C900, LG-E900 and Schubert T9292. Every other row is covered only by the per-table OS-version and screen-size guarantee.
- The `Lookup` method takes the table as a function from key to entry instead of a `Dictionary`. Dictionary hashing and its internal storage are not modelled.
