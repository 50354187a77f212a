/** The `gee:classes` check. A band of `summaries.eo:bands` may carry a
    `gee:classes` table of categorical values, each entry a record
    `{value: int, description: str, color: str}`. The check reports issues
    with the table as a whole (its size), with each entry (its keys and the
    types and forms of its fields), and with the entries together (values
    repeated or out of order, descriptions or colors repeated). */
module GeeClasses {
  import opened Text
  import opened Seqs
  import opened Json
  import opened Stac

  const SUMMARIES := "summaries"
  const EO_BANDS := "eo:bands"
  const CLASSES := "gee:classes"
  const VALUE := "value"
  const DESCRIPTION := "description"
  const COLOR := "color"

  const REQUIRED: set<string> := {DESCRIPTION, VALUE}
  const FIELDS: set<string> := {COLOR, DESCRIPTION, VALUE}

  const COLOR_NAMES: set<string> := {
    "black", "blue", "brown", "darkblue", "darkorange", "darkred", "darkslategray", "darkviolet",
    "ghostwhite", "green", "orange", "purple", "red", "slategray", "violet", "white", "yellow"}

  /** Datasets allowed a table of fewer than two classes. */
  const ONE_CLASS: set<string> := {"LANDSAT/MANGROVE_FORESTS", "UMD/GLAD/PRIMARY_HUMID_TROPICAL_FORESTS/v1"}

  /** Datasets allowed repeated descriptions. */
  const DUPLICATE_DESCRIPTIONS: set<string> := {
    "LANDFIRE/Vegetation/BPS/v1_4_0", "LANDFIRE/Vegetation/ESP/v1_2_0/AK",
    "LANDFIRE/Vegetation/ESP/v1_2_0/HI", "LANDFIRE/Vegetation/EVC/v1_4_0",
    "LANDFIRE/Vegetation/EVT/v1_4_0", "USDA/NASS/CDL"}

  /** Datasets allowed repeated colors. */
  const DUPLICATE_COLORS: set<string> := {
    "AAFC/ACI", "CSP/ERGo/1_0/US/lithology", "ISDASOIL/Africa/v1/fcc", "JRC/D5/EUCROPMAP/V1",
    "LANDFIRE/Vegetation/BPS/v1_4_0", "LANDFIRE/Vegetation/ESP/v1_2_0/AK",
    "LANDFIRE/Vegetation/ESP/v1_2_0/CONUS", "LANDFIRE/Vegetation/ESP/v1_2_0/HI",
    "LANDFIRE/Vegetation/EVC/v1_4_0", "LANDFIRE/Vegetation/EVT/v1_4_0", "NOAA/CDR/PATMOSX/V53",
    "OpenLandMap/SOL/SOL_GRTGROUP_USDA-SOILTAX_C/v01",
    "Oxford/MAP/IGBP_Fractional_Landcover_5km_Annual", "Tsinghua/FROM-GLC/GAIA/v10",
    "USDA/NASS/CDL", "USGS/NLCD", "USGS/GAP/CONUS/2011", "USGS/NLCD_RELEASES/2016_REL"}

  const MIN_CLASSES := 2
  const MAX_CLASSES := 255
  /** Ids containing one of these may have more than `MAX_CLASSES` classes. */
  const MANY_CLASSES_OK: seq<string> := ["LANDFIRE", "USGS/GAP"]
  const MAX_DESCRIPTION := 1000

  datatype Message =
    | ClassesNotList                          // '"gee:classes" must be a list'
    | TooFewClasses                           // 'must have at least 2 classes'
    | TooManyClasses(count: nat)
    | ItemNotDict                             // '"gee:classes" item must be a dict'
    | MissingKeys(missing: set<string>)
    | UnexpectedKey(key: string)
    | UnexpectedKeys(keys: seq<string>)       // sorted
    | ValueNotInteger(value: Json)
    | DescriptionNotString(description: Json)
    | InvalidDescription(text: string)        // the empty description
    | DescriptionTooLong(length: nat)
    | ColorNotString(color: Json)
    | InvalidColor(name: string)
    | DuplicateValues
    | UnsortedValues
    | DuplicateDescriptions
    | DuplicateColors

  predicate IsHexDigit(c: char)
  {
    '0' <= c <= '9' || 'a' <= c <= 'f' || 'A' <= c <= 'F'
  }

  /** The strings the pattern `[0-9a-fA-F]{6}([0-9a-fA-F]{2})?` matches in
      full: six or eight hexadecimal digits in either case. */
  predicate HexColor(s: string)
  {
    (|s| == 6 || |s| == 8) && forall i :: 0 <= i < |s| ==> IsHexDigit(s[i])
  }

  /** A color string the check accepts. */
  predicate ColorAccepted(s: string)
  {
    HexColor(s) || s in COLOR_NAMES
  }

  /** The table may be larger than `MAX_CLASSES` for this id. */
  predicate ManyClassesAllowed(id: string)
  {
    Contains(id, MANY_CLASSES_OK[0]) || Contains(id, MANY_CLASSES_OK[1])
  }

  // ---------------------------------------------------------------------
  // One entry of the table

  /** The issues about an entry's keys: required keys missing, and keys that
      are not fields. */
  function KeyIssues(e: seq<Member>): seq<Message>
  {
    MissingKeyIssues(e) + ExtraKeyIssues(e)
  }

  /** The missing-keys issue, naming the required keys that are absent. */
  function MissingKeyIssues(e: seq<Member>): seq<Message>
  {
    if !(REQUIRED <= Keys(e)) then [MissingKeys(REQUIRED - Keys(e))] else []
  }

  /** The unexpected-key issue: the single key that is not a field, or all
      of them in sorted order when there are more. */
  function ExtraKeyIssues(e: seq<Member>): seq<Message>
  {
    var extra := ExtraKeys(e, FIELDS);
    if |extra| == 1 then [UnexpectedKey(extra[0])]
    else if |extra| > 1 then [UnexpectedKeys(extra)]
    else []
  }

  function ValueIssues(e: seq<Member>): seq<Message>
  {
    match Get(e, VALUE)
    case Some(v) => if AsInt(v).None? then [ValueNotInteger(v)] else []
    case None => []
  }

  function DescriptionIssues(e: seq<Member>): seq<Message>
  {
    match Get(e, DESCRIPTION)
    case Some(JString(d)) =>
      if |d| < 1 then [InvalidDescription(d)]
      else if |d| > MAX_DESCRIPTION then [DescriptionTooLong(|d|)]
      else []
    case Some(v) => [DescriptionNotString(v)]
    case None => []
  }

  function ColorIssues(e: seq<Member>): seq<Message>
  {
    match Get(e, COLOR)
    case Some(JString(c)) => if ColorAccepted(c) then [] else [InvalidColor(c)]
    case Some(v) => [ColorNotString(v)]
    case None => []
  }

  /** The issues the check reports about one entry, in order. */
  function EntryIssues(a: Json): seq<Message>
  {
    match a
    case JObject(e) => KeyIssues(e) + ValueIssues(e) + DescriptionIssues(e) + ColorIssues(e)
    case _ => [ItemNotDict]
  }

  /** What an entry adds to the list of values: its integer value. */
  function EntryValues(a: Json): seq<int>
  {
    match a
    case JObject(e) =>
      (match Get(e, VALUE)
       case Some(v) => if AsInt(v).Some? then [AsInt(v).value] else []
       case None => [])
    case _ => []
  }

  /** What an entry adds to the list of descriptions: its description if it
      is a string, whether or not it is a valid one. */
  function EntryDescriptions(a: Json): seq<string>
  {
    match a
    case JObject(e) =>
      (match Get(e, DESCRIPTION)
       case Some(JString(d)) => [d]
       case _ => [])
    case _ => []
  }

  /** What an entry adds to the list of colors: its color if it is a string,
      whether or not it is a valid one. */
  function EntryColors(a: Json): seq<string>
  {
    match a
    case JObject(e) =>
      (match Get(e, COLOR)
       case Some(JString(c)) => [c]
       case _ => [])
    case _ => []
  }

  // ---------------------------------------------------------------------
  // The whole table

  /** The issues reported and the lists accumulated over entries. */
  datatype Tally = Tally(issues: seq<Message>, values: seq<int>, descriptions: seq<string>, colors: seq<string>)

  /** The tally after the entries `cs`, one entry after the other. */
  function Collect(cs: seq<Json>): Tally
  {
    if cs == [] then Tally([], [], [], [])
    else
      var t := Collect(cs[..|cs| - 1]);
      var a := cs[|cs| - 1];
      Tally(t.issues + EntryIssues(a), t.values + EntryValues(a),
            t.descriptions + EntryDescriptions(a), t.colors + EntryColors(a))
  }

  /** The issues about the entries together. */
  function CrossIssues(id: string, values: seq<int>, descriptions: seq<string>, colors: seq<string>): seq<Message>
  {
    (if |ToSet(values)| != |values| then [DuplicateValues] else []) +
    (if values != SortInts(values) then [UnsortedValues] else []) +
    (if |ToSet(descriptions)| != |descriptions| && id !in DUPLICATE_DESCRIPTIONS
     then [DuplicateDescriptions] else []) +
    (if |ToSet(colors)| != |colors| && id !in DUPLICATE_COLORS then [DuplicateColors] else [])
  }

  /** The issues about the size of a table of `n` entries. */
  function CountIssues(id: string, n: nat): seq<Message>
  {
    (if n < MIN_CLASSES && id !in ONE_CLASS then [TooFewClasses] else []) +
    (if n > MAX_CLASSES && !ManyClassesAllowed(id) then [TooManyClasses(n)] else [])
  }

  /** The issues about a table: its size, and, unless it is empty, its
      entries one by one and then together. */
  function TableIssues(id: string, cs: seq<Json>): seq<Message>
  {
    if |cs| == 0 then CountIssues(id, 0) else TallyIssues(id, |cs|, Collect(cs))
  }

  /** The issues about a non-empty table of `n` entries whose tally is `t`:
      its size issues, its entries' issues, then those of its entries
      together. */
  function TallyIssues(id: string, n: nat, t: Tally): seq<Message>
  {
    CountIssues(id, n) + t.issues + CrossIssues(id, t.values, t.descriptions, t.colors)
  }

  /** The issues about one band: none without a table, one when the table is
      not a list, and otherwise those of the table. */
  function BandIssues(id: string, band: seq<Member>): seq<Message>
  {
    match Get(band, CLASSES)
    case None => []
    case Some(JArray(cs)) => TableIssues(id, cs)
    case Some(_) => [ClassesNotList]
  }

  /** The tally after one more entry. */
  lemma CollectStep(cs: seq<Json>, j: nat)
    requires j < |cs|
    ensures Collect(cs[..j + 1]) ==
      var t := Collect(cs[..j]);
      Tally(t.issues + EntryIssues(cs[j]), t.values + EntryValues(cs[j]),
            t.descriptions + EntryDescriptions(cs[j]), t.colors + EntryColors(cs[j]))
  {
    assert cs[..j + 1][..j] == cs[..j];
  }

  /** The issues about one element of `eo:bands`. The test `CLASSES not in
      band` is a key test on an object, a substring test on a string and a
      membership test on a list: a string or a list without `gee:classes` is
      skipped, as is every element that is not an object here (the others
      raise, see `BandSupported`). */
  function ItemIssues(id: string, b: Json): seq<Message>
  {
    match b
    case JObject(band) => BandIssues(id, band)
    case _ => []
  }

  /** An element of `eo:bands` on which the check does not raise: an object,
      a string that does not contain `gee:classes`, or a list that does not
      hold it. `in` on a number, a bool or null raises, and so does indexing
      a string or a list that passes the test. */
  predicate BandSupported(b: Json)
  {
    match b
    case JObject(_) => true
    case JString(s) => !Contains(s, CLASSES)
    case JArray(xs) => JString(CLASSES) !in xs
    case _ => false
  }

  /** The issues of the bands, band after band. */
  function BandsIssues(id: string, bands: seq<Json>): seq<Message>
  {
    if bands == [] then []
    else BandsIssues(id, bands[..|bands| - 1]) + ItemIssues(id, bands[|bands| - 1])
  }

  /** The inputs on which the check runs to its end. When the summaries hold
      `eo:bands`, it is iterated: a list element by element (each one
      `BandSupported`), an object key by key (a key is a string band, so
      none may contain `gee:classes`), and a string character by character
      (a single character never contains it). Any other value is not
      iterable and raises. */
  predicate Supported(node: Node)
  {
    match Get(node.payload, SUMMARIES)
    case Some(JObject(s)) =>
      (match Get(s, EO_BANDS)
       case None => true
       case Some(JArray(bands)) => forall i :: 0 <= i < |bands| ==> BandSupported(bands[i])
       case Some(JObject(m)) => forall k :: k in Keys(m) ==> !Contains(k, CLASSES)
       case Some(JString(_)) => true
       case Some(_) => false)
    case _ => true
  }

  /** The issues the check reports for a node: those of the elements of
      `eo:bands` when it is a list, and none otherwise, since the keys of an
      object and the characters of a string are skipped. */
  function Issues(node: Node): seq<Message>
    requires Supported(node)
  {
    match Get(node.payload, SUMMARIES)
    case Some(JObject(s)) =>
      (match Get(s, EO_BANDS)
       case Some(JArray(bands)) => BandsIssues(node.id, bands)
       case _ => [])
    case _ => []
  }

  // ---------------------------------------------------------------------
  // What the issues mean

  /** A color is accepted when it is six or eight hex digits, in any case,
      or one of the color names. */
  lemma ColorExamples()
    ensures ColorAccepted("FAFAFA") && ColorAccepted("AABBCCDD") && ColorAccepted("00c5ff")
    ensures ColorAccepted("red") && ColorAccepted("violet")
    ensures !ColorAccepted("GGGGGG") && !ColorAccepted("FAFAF") && !ColorAccepted("nonsense")
  {
    assert !IsHexDigit("GGGGGG"[0]);
    assert |"nonsense"| == 8 && !IsHexDigit("nonsense"[0]);
  }

  /** The size issues: too few classes (below 2) outside the datasets allowed
      one class, and too many (above 255) when the id contains neither
      `LANDFIRE` nor `USGS/GAP`; never both. */
  lemma CountRule(id: string, n: nat)
    ensures TooFewClasses in CountIssues(id, n) <==> n < MIN_CLASSES && id !in ONE_CLASS
    ensures forall k :: TooManyClasses(k) in CountIssues(id, n) <==>
      (k == n && n > MAX_CLASSES &&
       !(exists i :: OccursAt(id, "LANDFIRE", i)) && !(exists i :: OccursAt(id, "USGS/GAP", i)))
    ensures |CountIssues(id, n)| <= 1
  {
    ContainsAt(id, MANY_CLASSES_OK[0]);
    ContainsAt(id, MANY_CLASSES_OK[1]);
  }

  /** An entry that is not an object gets that one issue and adds nothing to
      the lists. */
  lemma NotDictRule(a: Json)
    requires !a.JObject?
    ensures EntryIssues(a) == [ItemNotDict]
    ensures EntryValues(a) == [] && EntryDescriptions(a) == [] && EntryColors(a) == []
  {
  }

  /** The key issues: the missing required keys, if any; then the single
      unknown key, or all unknown keys in sorted order. */
  lemma KeysRule(e: seq<Member>)
    ensures forall ks :: MissingKeys(ks) in KeyIssues(e) <==> (ks == REQUIRED - Keys(e) && ks != {})
    ensures forall k :: UnexpectedKey(k) in KeyIssues(e) <==> Keys(e) - FIELDS == {k}
    ensures forall ks :: UnexpectedKeys(ks) in KeyIssues(e) <==>
      (|Keys(e) - FIELDS| >= 2 && StrictlySorted(ks) && forall x :: x in ks <==> x in Keys(e) - FIELDS)
    ensures KeyIssues(e) == [] <==> REQUIRED <= Keys(e) <= FIELDS
  {
    ExtraKeysRule(e);
  }

  /** The keys that are not fields: one issue naming the key when there is
      exactly one, one listing them all in sorted order when there are more,
      none otherwise. */
  lemma ExtraKeysRule(e: seq<Member>)
    ensures forall k :: UnexpectedKey(k) in ExtraKeyIssues(e) <==> Keys(e) - FIELDS == {k}
    ensures forall ks :: UnexpectedKeys(ks) in ExtraKeyIssues(e) <==>
      (|Keys(e) - FIELDS| >= 2 && StrictlySorted(ks) && forall x :: x in ks <==> x in Keys(e) - FIELDS)
    ensures forall m :: m in ExtraKeyIssues(e) ==> m.UnexpectedKey? || m.UnexpectedKeys?
    ensures ExtraKeyIssues(e) == [] <==> Keys(e) <= FIELDS
  {
    var extra := ExtraKeys(e, FIELDS);
    forall ks ensures ks == extra <==> StrictlySorted(ks) && forall x :: x in ks <==> x in Keys(e) - FIELDS {
      ExtraKeysUnique(e, FIELDS, ks);
    }
    if |extra| == 1 {
      assert Keys(e) - FIELDS == {extra[0]};
    }
  }

  /** The value: an issue when it is present and not an integer; collected
      exactly when it is an integer. */
  lemma ValueRule(e: seq<Member>)
    ensures forall v :: ValueIssues(e) == [ValueNotInteger(v)] <==> (Get(e, VALUE) == Some(v) && AsInt(v).None?)
    ensures ValueIssues(e) == [] <==> (VALUE in Keys(e) ==> AsInt(Get(e, VALUE).value).Some?)
    ensures forall n :: EntryValues(JObject(e)) == [n] <==>
      (VALUE in Keys(e) && AsInt(Get(e, VALUE).value) == Some(n))
    ensures EntryValues(JObject(e)) == [] <==> (VALUE in Keys(e) ==> AsInt(Get(e, VALUE).value).None?)
  {
  }

  /** The description: an issue when it is not a string, or is empty, or is
      longer than 1000 characters, at most one of them; collected whenever
      it is a string, valid or not. */
  lemma DescriptionRule(e: seq<Member>)
    ensures forall v :: DescriptionIssues(e) == [DescriptionNotString(v)] <==>
      (Get(e, DESCRIPTION) == Some(v) && !v.JString?)
    ensures forall d :: DescriptionIssues(e) == [InvalidDescription(d)] <==>
      (Get(e, DESCRIPTION) == Some(JString(d)) && d == "")
    ensures forall n :: DescriptionIssues(e) == [DescriptionTooLong(n)] <==>
      (DESCRIPTION in Keys(e) && Get(e, DESCRIPTION).value.JString? &&
       n == |Get(e, DESCRIPTION).value.str| > MAX_DESCRIPTION)
    ensures |DescriptionIssues(e)| <= 1
    ensures DescriptionIssues(e) == [] <==>
      (DESCRIPTION in Keys(e) ==>
         Get(e, DESCRIPTION).value.JString? && 1 <= |Get(e, DESCRIPTION).value.str| <= MAX_DESCRIPTION)
    ensures forall d :: EntryDescriptions(JObject(e)) == [d] <==> Get(e, DESCRIPTION) == Some(JString(d))
    ensures EntryDescriptions(JObject(e)) == [] <==>
      (DESCRIPTION in Keys(e) ==> !Get(e, DESCRIPTION).value.JString?)
  {
  }

  /** The color: an issue when it is not a string or not an accepted color;
      collected whenever it is a string, accepted or not. */
  lemma ColorRule(e: seq<Member>)
    ensures forall v :: ColorIssues(e) == [ColorNotString(v)] <==> (Get(e, COLOR) == Some(v) && !v.JString?)
    ensures forall c :: ColorIssues(e) == [InvalidColor(c)] <==>
      (Get(e, COLOR) == Some(JString(c)) && !ColorAccepted(c))
    ensures ColorIssues(e) == [] <==>
      (COLOR in Keys(e) ==> Get(e, COLOR).value.JString? && ColorAccepted(Get(e, COLOR).value.str))
    ensures forall c :: EntryColors(JObject(e)) == [c] <==> Get(e, COLOR) == Some(JString(c))
    ensures EntryColors(JObject(e)) == [] <==> (COLOR in Keys(e) ==> !Get(e, COLOR).value.JString?)
  {
  }

  /** The issues about a single entry. */
  predicate EntryMessage(m: Message)
  {
    || m.ItemNotDict? || m.MissingKeys? || m.UnexpectedKey? || m.UnexpectedKeys?
    || m.ValueNotInteger? || m.DescriptionNotString? || m.InvalidDescription? || m.DescriptionTooLong?
    || m.ColorNotString? || m.InvalidColor?
  }

  lemma EntryIssuesAreEntryMessages(a: Json)
    ensures forall m :: m in EntryIssues(a) ==> EntryMessage(m)
  {
    match a
    case JObject(e) =>
      PartMessages(e);
      FourParts(KeyIssues(e), ValueIssues(e), DescriptionIssues(e), ColorIssues(e), EntryIssues(a));
    case _ =>
  }

  /** Each part of an object entry's issues holds issues of that part only. */
  lemma PartMessages(e: seq<Member>)
    ensures forall m :: m in KeyIssues(e) ==> m.MissingKeys? || m.UnexpectedKey? || m.UnexpectedKeys?
    ensures forall m :: m in ValueIssues(e) ==> m.ValueNotInteger?
    ensures forall m :: m in DescriptionIssues(e) ==>
      m.DescriptionNotString? || m.InvalidDescription? || m.DescriptionTooLong?
    ensures forall m :: m in ColorIssues(e) ==> m.ColorNotString? || m.InvalidColor?
  {
    KeyMessages(e);
    DescriptionMessages(e);
  }

  lemma KeyMessages(e: seq<Member>)
    ensures forall m :: m in KeyIssues(e) ==> m.MissingKeys? || m.UnexpectedKey? || m.UnexpectedKeys?
  {
  }

  lemma DescriptionMessages(e: seq<Member>)
    ensures forall m :: m in DescriptionIssues(e) ==>
      m.DescriptionNotString? || m.InvalidDescription? || m.DescriptionTooLong?
  {
  }

  /** Four lists of entry issues one after the other hold entry issues only,
      and never the not-an-object issue. */
  lemma FourParts(keys: seq<Message>, value: seq<Message>, description: seq<Message>, color: seq<Message>,
                  all: seq<Message>)
    requires all == keys + value + description + color
    requires forall m :: m in keys ==> m.MissingKeys? || m.UnexpectedKey? || m.UnexpectedKeys?
    requires forall m :: m in value ==> m.ValueNotInteger?
    requires forall m :: m in description ==> m.DescriptionNotString? || m.InvalidDescription? || m.DescriptionTooLong?
    requires forall m :: m in color ==> m.ColorNotString? || m.InvalidColor?
    ensures forall m :: m in all ==> EntryMessage(m)
    ensures ItemNotDict !in all
  {
  }

  /** The entries' issues, value lists, description lists and color lists,
      entry by entry. */
  function IssueLists(cs: seq<Json>): (r: seq<seq<Message>>)
    ensures |r| == |cs| && forall j :: 0 <= j < |cs| ==> r[j] == EntryIssues(cs[j])
  {
    seq(|cs|, j requires 0 <= j < |cs| => EntryIssues(cs[j]))
  }

  function ValueLists(cs: seq<Json>): (r: seq<seq<int>>)
    ensures |r| == |cs| && forall j :: 0 <= j < |cs| ==> r[j] == EntryValues(cs[j])
  {
    seq(|cs|, j requires 0 <= j < |cs| => EntryValues(cs[j]))
  }

  function DescriptionLists(cs: seq<Json>): (r: seq<seq<string>>)
    ensures |r| == |cs| && forall j :: 0 <= j < |cs| ==> r[j] == EntryDescriptions(cs[j])
  {
    seq(|cs|, j requires 0 <= j < |cs| => EntryDescriptions(cs[j]))
  }

  function ColorLists(cs: seq<Json>): (r: seq<seq<string>>)
    ensures |r| == |cs| && forall j :: 0 <= j < |cs| ==> r[j] == EntryColors(cs[j])
  {
    seq(|cs|, j requires 0 <= j < |cs| => EntryColors(cs[j]))
  }

  /** The tally is the entries' contributions one after the other, field by
      field. */
  lemma {:induction false} CollectIssuesConcat(cs: seq<Json>)
    ensures Collect(cs).issues == Concat(IssueLists(cs))
  {
    if cs != [] {
      var n := |cs| - 1;
      CollectIssuesConcat(cs[..n]);
      assert IssueLists(cs)[..n] == IssueLists(cs[..n]);
    }
  }

  lemma {:induction false} CollectValuesConcat(cs: seq<Json>)
    ensures Collect(cs).values == Concat(ValueLists(cs))
  {
    if cs != [] {
      var n := |cs| - 1;
      CollectValuesConcat(cs[..n]);
      assert ValueLists(cs)[..n] == ValueLists(cs[..n]);
    }
  }

  lemma {:induction false} CollectDescriptionsConcat(cs: seq<Json>)
    ensures Collect(cs).descriptions == Concat(DescriptionLists(cs))
  {
    if cs != [] {
      var n := |cs| - 1;
      CollectDescriptionsConcat(cs[..n]);
      assert DescriptionLists(cs)[..n] == DescriptionLists(cs[..n]);
    }
  }

  lemma {:induction false} CollectColorsConcat(cs: seq<Json>)
    ensures Collect(cs).colors == Concat(ColorLists(cs))
  {
    if cs != [] {
      var n := |cs| - 1;
      CollectColorsConcat(cs[..n]);
      assert ColorLists(cs)[..n] == ColorLists(cs[..n]);
    }
  }

  /** The tally's issues are all about single entries. */
  lemma CollectIssuesAreEntryMessages(cs: seq<Json>)
    ensures forall m :: m in Collect(cs).issues ==> EntryMessage(m)
  {
    CollectIssuesConcat(cs);
    forall m | m in Collect(cs).issues ensures EntryMessage(m) {
      InConcat(IssueLists(cs), m);
      var j :| 0 <= j < |cs| && m in EntryIssues(cs[j]);
      EntryIssuesAreEntryMessages(cs[j]);
    }
  }

  /** No entry of `cs` has an issue of its own. */
  predicate EntriesClean(cs: seq<Json>)
  {
    forall j :: 0 <= j < |cs| ==> EntryIssues(cs[j]) == []
  }

  /** The tally reports no issue exactly when no entry has one. */
  lemma CollectClean(cs: seq<Json>)
    ensures Collect(cs).issues == [] <==> EntriesClean(cs)
  {
    CollectIssuesConcat(cs);
    ConcatEmpty(IssueLists(cs));
  }

  /** The values are what the entries contribute, at most one per entry. */
  lemma CollectValues(cs: seq<Json>)
    ensures forall x :: x in Collect(cs).values <==> exists j :: 0 <= j < |cs| && x in EntryValues(cs[j])
    ensures |Collect(cs).values| <= |cs|
  {
    CollectValuesConcat(cs);
    forall x ensures x in Collect(cs).values <==> exists j :: 0 <= j < |cs| && x in EntryValues(cs[j]) {
      InConcat(ValueLists(cs), x);
    }
    ConcatAtMostOne(ValueLists(cs));
  }

  /** The descriptions are what the entries contribute, at most one per
      entry. */
  lemma CollectDescriptions(cs: seq<Json>)
    ensures forall x :: x in Collect(cs).descriptions <==> exists j :: 0 <= j < |cs| && x in EntryDescriptions(cs[j])
    ensures |Collect(cs).descriptions| <= |cs|
  {
    CollectDescriptionsConcat(cs);
    forall x ensures x in Collect(cs).descriptions <==> exists j :: 0 <= j < |cs| && x in EntryDescriptions(cs[j]) {
      InConcat(DescriptionLists(cs), x);
    }
    ConcatAtMostOne(DescriptionLists(cs));
  }

  /** The colors are what the entries contribute, at most one per entry. */
  lemma CollectColors(cs: seq<Json>)
    ensures forall x :: x in Collect(cs).colors <==> exists j :: 0 <= j < |cs| && x in EntryColors(cs[j])
    ensures |Collect(cs).colors| <= |cs|
  {
    CollectColorsConcat(cs);
    forall x ensures x in Collect(cs).colors <==> exists j :: 0 <= j < |cs| && x in EntryColors(cs[j]) {
      InConcat(ColorLists(cs), x);
    }
    ConcatAtMostOne(ColorLists(cs));
  }

  /** When every entry gives one value, the values are those, in the order
      of the entries; likewise for descriptions and colors. */
  lemma ValuesOfRows(cs: seq<Json>, vs: seq<int>)
    requires |vs| == |cs| && forall j :: 0 <= j < |cs| ==> EntryValues(cs[j]) == [vs[j]]
    ensures Collect(cs).values == vs
  {
    CollectValuesConcat(cs);
    ConcatSingletons(ValueLists(cs), vs);
  }

  lemma DescriptionsOfRows(cs: seq<Json>, ds: seq<string>)
    requires |ds| == |cs| && forall j :: 0 <= j < |cs| ==> EntryDescriptions(cs[j]) == [ds[j]]
    ensures Collect(cs).descriptions == ds
  {
    CollectDescriptionsConcat(cs);
    ConcatSingletons(DescriptionLists(cs), ds);
  }

  lemma ColorsOfRows(cs: seq<Json>, colors: seq<string>)
    requires |colors| == |cs| && forall j :: 0 <= j < |cs| ==> EntryColors(cs[j]) == [colors[j]]
    ensures Collect(cs).colors == colors
  {
    CollectColorsConcat(cs);
    ConcatSingletons(ColorLists(cs), colors);
  }

  /** The issues about the entries together: duplicate values exactly when
      the values are not distinct, unsorted values exactly when they are not
      in non-decreasing order, and duplicate descriptions or colors when
      those are not distinct, unless the dataset is allowed them. */
  lemma CrossRule(id: string, values: seq<int>, descriptions: seq<string>, colors: seq<string>)
    ensures DuplicateValues in CrossIssues(id, values, descriptions, colors) <==> !Distinct(values)
    ensures UnsortedValues in CrossIssues(id, values, descriptions, colors) <==> !NonDecreasing(values)
    ensures DuplicateDescriptions in CrossIssues(id, values, descriptions, colors) <==>
      !Distinct(descriptions) && id !in DUPLICATE_DESCRIPTIONS
    ensures DuplicateColors in CrossIssues(id, values, descriptions, colors) <==>
      !Distinct(colors) && id !in DUPLICATE_COLORS
    ensures CrossIssues(id, values, descriptions, colors) == [] <==>
      && Distinct(values) && NonDecreasing(values)
      && (Distinct(descriptions) || id in DUPLICATE_DESCRIPTIONS)
      && (Distinct(colors) || id in DUPLICATE_COLORS)
  {
    CardIffDistinct(values);
    CardIffDistinct(descriptions);
    CardIffDistinct(colors);
    SortedIffFixed(values);
    CrossFlags(|ToSet(values)| != |values|, values != SortInts(values),
               |ToSet(descriptions)| != |descriptions| && id !in DUPLICATE_DESCRIPTIONS,
               |ToSet(colors)| != |colors| && id !in DUPLICATE_COLORS,
               CrossIssues(id, values, descriptions, colors));
  }

  /** The four cross-entry issues, each present exactly when its condition
      holds. */
  lemma CrossFlags(duplicateValues: bool, unsorted: bool, duplicateDescriptions: bool, duplicateColors: bool,
                   all: seq<Message>)
    requires all ==
      (if duplicateValues then [DuplicateValues] else []) + (if unsorted then [UnsortedValues] else []) +
      (if duplicateDescriptions then [DuplicateDescriptions] else []) +
      (if duplicateColors then [DuplicateColors] else [])
    ensures DuplicateValues in all <==> duplicateValues
    ensures UnsortedValues in all <==> unsorted
    ensures DuplicateDescriptions in all <==> duplicateDescriptions
    ensures DuplicateColors in all <==> duplicateColors
    ensures all == [] <==> !duplicateValues && !unsorted && !duplicateDescriptions && !duplicateColors
  {
  }

  /** A repeated value is reported as a duplicate but not as out of order. */
  lemma RepeatedValue(id: string, v: int, descriptions: seq<string>, colors: seq<string>)
    requires Distinct(descriptions) && Distinct(colors)
    ensures CrossIssues(id, [v, v], descriptions, colors) == [DuplicateValues]
  {
    CardIffDistinct([v, v]);
    CardIffDistinct(descriptions);
    CardIffDistinct(colors);
    SortedIffFixed([v, v]);
    assert !Distinct([v, v]) by {
      assert [v, v][0] == [v, v][1];
    }
    assert NonDecreasing([v, v]);
  }

  /** Two values in decreasing order are reported as out of order but not as
      duplicates. */
  lemma DecreasingValues(id: string, v: int, w: int, descriptions: seq<string>, colors: seq<string>)
    requires v > w && Distinct(descriptions) && Distinct(colors)
    ensures CrossIssues(id, [v, w], descriptions, colors) == [UnsortedValues]
  {
    CardIffDistinct([v, w]);
    CardIffDistinct(descriptions);
    CardIffDistinct(colors);
    SortedIffFixed([v, w]);
    assert Distinct([v, w]);
    assert !NonDecreasing([v, w]) by {
      assert [v, w][0] > [v, w][1];
    }
  }

  /** A table of no entries gets at most the too-few issue. */
  lemma EmptyTableRule(id: string)
    ensures TableIssues(id, []) == if id in ONE_CLASS then [] else [TooFewClasses]
  {
  }

  /** Appending issues of other kinds leaves the size issues as they are. */
  lemma SizeIssuesKept(id: string, n: nat, entries: seq<Message>, cross: seq<Message>, all: seq<Message>)
    requires all == CountIssues(id, n) + entries + cross
    requires forall m :: m in entries ==> EntryMessage(m)
    requires forall m :: m in cross ==> m.DuplicateValues? || m.UnsortedValues? || m.DuplicateDescriptions? || m.DuplicateColors?
    ensures TooFewClasses in all <==> TooFewClasses in CountIssues(id, n)
    ensures forall k :: TooManyClasses(k) in all <==> TooManyClasses(k) in CountIssues(id, n)
  {
  }

  /** The issues about the entries together are of the four cross-entry
      kinds. */
  lemma CrossMessages(id: string, values: seq<int>, descriptions: seq<string>, colors: seq<string>)
    ensures forall m :: m in CrossIssues(id, values, descriptions, colors) ==>
      m.DuplicateValues? || m.UnsortedValues? || m.DuplicateDescriptions? || m.DuplicateColors?
  {
  }

  /** A non-empty table's issues are its size issues, its entries' issues and
      the issues of its entries together, in that order. */
  lemma TableOfTally(id: string, cs: seq<Json>)
    requires cs != []
    ensures var t := Collect(cs);
      TableIssues(id, cs) == CountIssues(id, |cs|) + t.issues + CrossIssues(id, t.values, t.descriptions, t.colors)
  {
  }

  /** In a table's issues, the size issues are exactly those of its size. */
  lemma TableCountRule(id: string, cs: seq<Json>)
    ensures TooFewClasses in TableIssues(id, cs) <==> TooFewClasses in CountIssues(id, |cs|)
    ensures forall k :: TooManyClasses(k) in TableIssues(id, cs) <==> TooManyClasses(k) in CountIssues(id, |cs|)
  {
    if cs != [] {
      var t := Collect(cs);
      TableOfTally(id, cs);
      CollectIssuesAreEntryMessages(cs);
      CrossMessages(id, t.values, t.descriptions, t.colors);
      SizeIssuesKept(id, |cs|, t.issues, CrossIssues(id, t.values, t.descriptions, t.colors), TableIssues(id, cs));
    }
  }

  /** A table of `n` entries is of an allowed size. */
  predicate SizeAllowed(id: string, n: nat)
  {
    (n >= MIN_CLASSES || id in ONE_CLASS) && (n <= MAX_CLASSES || ManyClassesAllowed(id))
  }

  /** The lists accumulated over the entries pass together: the values are
      unique and in order, the descriptions and colors unique unless the
      dataset is exempt. */
  predicate TogetherAccepted(id: string, t: Tally)
  {
    && Distinct(t.values) && NonDecreasing(t.values)
    && (Distinct(t.descriptions) || id in DUPLICATE_DESCRIPTIONS)
    && (Distinct(t.colors) || id in DUPLICATE_COLORS)
  }

  /** A table has no issues exactly when its size is allowed, no entry has
      an issue, and, if it is not empty, the entries pass together. */
  lemma TableAcceptedIff(id: string, cs: seq<Json>)
    ensures TableIssues(id, cs) == [] <==>
      SizeAllowed(id, |cs|) && EntriesClean(cs) && (|cs| > 0 ==> TogetherAccepted(id, Collect(cs)))
  {
    if cs != [] {
      var t := Collect(cs);
      assert TableIssues(id, cs) == TallyIssues(id, |cs|, t);
      TallyAccepted(id, |cs|, t);
      CollectClean(cs);
    } else {
      CountClean(id, 0);
    }
  }

  /** A tally has no issues exactly when the size is allowed, no entry had an
      issue, and the entries pass together. */
  lemma TallyAccepted(id: string, n: nat, t: Tally)
    ensures TallyIssues(id, n, t) == [] <==> SizeAllowed(id, n) && t.issues == [] && TogetherAccepted(id, t)
  {
    TallyClean(id, n, t);
    CrossRule(id, t.values, t.descriptions, t.colors);
    CountClean(id, n);
  }

  /** A non-empty table has no issues exactly when its size, its entries'
      tally and its entries together have none. */
  lemma TallyClean(id: string, n: nat, t: Tally)
    ensures TallyIssues(id, n, t) == [] <==>
      CountIssues(id, n) == [] && t.issues == [] && CrossIssues(id, t.values, t.descriptions, t.colors) == []
  {
    ThreeEmpty(CountIssues(id, n), t.issues, CrossIssues(id, t.values, t.descriptions, t.colors));
  }

  /** A size has no issue exactly when it is allowed. */
  lemma CountClean(id: string, n: nat)
    ensures CountIssues(id, n) == [] <==> SizeAllowed(id, n)
  {
  }

  lemma ThreeEmpty(a: seq<Message>, b: seq<Message>, c: seq<Message>)
    ensures a + b + c == [] <==> a == [] && b == [] && c == []
  {
    assert |a + b + c| == |a| + |b| + |c|;
  }

  /** The entry `{color: c, description: d, value: v}`. */
  function Row(v: int, d: string, c: string): (a: Json)
    ensures a.JObject? && Keys(a.members) == FIELDS
    ensures Get(a.members, VALUE) == Some(JInt(v))
    ensures Get(a.members, DESCRIPTION) == Some(JString(d))
    ensures Get(a.members, COLOR) == Some(JString(c))
  {
    var e := [Member(COLOR, JString(c)), Member(DESCRIPTION, JString(d)), Member(VALUE, JInt(v))];
    assert COLOR[0] == 'c' && DESCRIPTION[0] == 'd' && VALUE[0] == 'v';
    assert Get(e[2..], VALUE) == Some(JInt(v));
    assert Get(e[1..], VALUE) == Some(JInt(v)) && Get(e[1..], DESCRIPTION) == Some(JString(d));
    assert Keys(e) == FIELDS;
    JObject(e)
  }

  /** A row with a description of 1 to 1000 characters and an accepted
      color has no issues and adds its value, description and color. */
  lemma RowRule(v: int, d: string, c: string)
    requires 1 <= |d| <= MAX_DESCRIPTION && ColorAccepted(c)
    ensures EntryIssues(Row(v, d, c)) == []
    ensures EntryValues(Row(v, d, c)) == [v]
    ensures EntryDescriptions(Row(v, d, c)) == [d] && EntryColors(Row(v, d, c)) == [c]
  {
    var e := Row(v, d, c).members;
    RowKeys(v, d, c);
    RowFields(v, d, c);
    assert EntryIssues(Row(v, d, c)) == KeyIssues(e) + ValueIssues(e) + DescriptionIssues(e) + ColorIssues(e);
  }

  lemma RowKeys(v: int, d: string, c: string)
    ensures KeyIssues(Row(v, d, c).members) == []
  {
    var e := Row(v, d, c).members;
    assert Keys(e) - FIELDS == {};
    assert MissingKeyIssues(e) == [] && ExtraKeyIssues(e) == [];
  }

  lemma RowFields(v: int, d: string, c: string)
    requires 1 <= |d| <= MAX_DESCRIPTION && ColorAccepted(c)
    ensures var e := Row(v, d, c).members;
      ValueIssues(e) == [] && DescriptionIssues(e) == [] && ColorIssues(e) == []
    ensures EntryValues(Row(v, d, c)) == [v]
    ensures EntryDescriptions(Row(v, d, c)) == [d] && EntryColors(Row(v, d, c)) == [c]
  {
  }

  /** A table of valid rows, with increasing values and distinct
      descriptions and colors, has no issues exactly when its size is
      allowed. */
  lemma ValidTableRule(id: string, cs: seq<Json>, vs: seq<int>, ds: seq<string>, colors: seq<string>)
    requires |vs| == |cs| && |ds| == |cs| && |colors| == |cs|
    requires forall j :: 0 <= j < |cs| ==> cs[j] == Row(vs[j], ds[j], colors[j])
    requires forall j :: 0 <= j < |cs| ==> 1 <= |ds[j]| <= MAX_DESCRIPTION && ColorAccepted(colors[j])
    requires forall i, j :: 0 <= i < j < |cs| ==> vs[i] < vs[j]
    requires Distinct(ds) && Distinct(colors)
    ensures TableIssues(id, cs) == [] <==> SizeAllowed(id, |cs|)
  {
    ValidRowsClean(cs, vs, ds, colors);
    CleanRowsRule(id, cs, vs, ds, colors);
  }

  /** Such a table, when it is not empty, has only its size issues. */
  lemma ValidTableIssues(id: string, cs: seq<Json>, vs: seq<int>, ds: seq<string>, colors: seq<string>)
    requires |vs| == |cs| && |ds| == |cs| && |colors| == |cs|
    requires forall j :: 0 <= j < |cs| ==> cs[j] == Row(vs[j], ds[j], colors[j])
    requires forall j :: 0 <= j < |cs| ==> 1 <= |ds[j]| <= MAX_DESCRIPTION && ColorAccepted(colors[j])
    requires forall i, j :: 0 <= i < j < |cs| ==> vs[i] < vs[j]
    requires Distinct(ds) && Distinct(colors)
    ensures cs != [] ==> TableIssues(id, cs) == CountIssues(id, |cs|)
  {
    ValidRowsClean(cs, vs, ds, colors);
    CleanRowsRule(id, cs, vs, ds, colors);
  }

  /** Valid rows are clean, and increasing values are unique and sorted. */
  lemma ValidRowsClean(cs: seq<Json>, vs: seq<int>, ds: seq<string>, colors: seq<string>)
    requires |vs| == |cs| && |ds| == |cs| && |colors| == |cs|
    requires forall j :: 0 <= j < |cs| ==> cs[j] == Row(vs[j], ds[j], colors[j])
    requires forall j :: 0 <= j < |cs| ==> 1 <= |ds[j]| <= MAX_DESCRIPTION && ColorAccepted(colors[j])
    requires forall i, j :: 0 <= i < j < |cs| ==> vs[i] < vs[j]
    ensures forall j :: 0 <= j < |cs| ==> CleanRow(cs[j], vs[j], ds[j], colors[j])
    ensures Distinct(vs) && NonDecreasing(vs)
  {
    forall j | 0 <= j < |cs| ensures CleanRow(cs[j], vs[j], ds[j], colors[j]) {
      RowRule(vs[j], ds[j], colors[j]);
    }
  }

  /** Entry `a` has no issues and adds the value `v`, the description `d`
      and the color `c`. */
  predicate CleanRow(a: Json, v: int, d: string, c: string)
  {
    EntryIssues(a) == [] && EntryValues(a) == [v] && EntryDescriptions(a) == [d] && EntryColors(a) == [c]
  }

  /** A table of entries without issues, each adding one value, description
      and color, has no issues exactly when its size is allowed, provided
      the values are unique and sorted and the descriptions and colors
      unique. */
  lemma CleanRowsRule(id: string, cs: seq<Json>, vs: seq<int>, ds: seq<string>, colors: seq<string>)
    requires |vs| == |cs| && |ds| == |cs| && |colors| == |cs|
    requires forall j :: 0 <= j < |cs| ==> CleanRow(cs[j], vs[j], ds[j], colors[j])
    requires Distinct(vs) && NonDecreasing(vs) && Distinct(ds) && Distinct(colors)
    ensures TableIssues(id, cs) == [] <==> SizeAllowed(id, |cs|)
    ensures cs != [] ==> TableIssues(id, cs) == CountIssues(id, |cs|)
  {
    ValuesOfRows(cs, vs);
    DescriptionsOfRows(cs, ds);
    ColorsOfRows(cs, colors);
    TableAcceptedIff(id, cs);
    if cs != [] {
      var t := Collect(cs);
      TableOfTally(id, cs);
      CollectClean(cs);
      CrossRule(id, t.values, t.descriptions, t.colors);
    }
  }

  /** Two valid rows with increasing values and different descriptions and
      colors make a table with no issues. */
  lemma TwoRows(id: string, cs: seq<Json>, v: int, w: int, d1: string, d2: string, c1: string, c2: string)
    requires |cs| == 2 && cs[0] == Row(v, d1, c1) && cs[1] == Row(w, d2, c2)
    requires v < w && d1 != d2 && c1 != c2
    requires 1 <= |d1| <= MAX_DESCRIPTION && 1 <= |d2| <= MAX_DESCRIPTION
    requires ColorAccepted(c1) && ColorAccepted(c2)
    ensures TableIssues(id, cs) == []
  {
    PairDistinct(d1, d2);
    PairDistinct(c1, c2);
    ValidTableRule(id, cs, [v, w], [d1, d2], [c1, c2]);
  }

  lemma PairDistinct(x: string, y: string)
    requires x != y
    ensures Distinct([x, y])
  {
  }

  /** The valid table of the check's tests, two rows with a hex and a named
      color, has no issues. */
  lemma ValidExample(id: string)
    ensures TableIssues(id, [Row(1, "A", "FAFAFA"), Row(2, "B", "violet")]) == []
  {
    assert "A" != "B" && "FAFAFA" != "violet" by {
      assert "A"[0] != "B"[0] && "FAFAFA"[0] != "violet"[0];
    }
    assert ColorAccepted("FAFAFA") && ColorAccepted("violet");
    TwoRows(id, [Row(1, "A", "FAFAFA"), Row(2, "B", "violet")], 1, 2, "A", "B", "FAFAFA", "violet");
  }

  /** A lone valid class is reported as too few classes, and nothing else,
      except for the datasets allowed one class, which pass. */
  lemma OneClassExample(id: string)
    ensures TableIssues(id, [Row(1, "A", "red")]) == (if id in ONE_CLASS then [] else [TooFewClasses])
  {
    ColorExamples();
    ValidTableIssues(id, [Row(1, "A", "red")], [1], ["A"], ["red"]);
  }

  /** An entry reports that it is not an object exactly when it is not. */
  lemma ItemNotDictEntry(a: Json)
    ensures ItemNotDict in EntryIssues(a) <==> !a.JObject?
  {
    match a
    case JObject(e) =>
      PartMessages(e);
      FourParts(KeyIssues(e), ValueIssues(e), DescriptionIssues(e), ColorIssues(e), EntryIssues(a));
    case _ =>
  }

  /** A table reports an entry that is not an object exactly when it has
      one. */
  lemma ItemNotDictRule(id: string, cs: seq<Json>)
    ensures ItemNotDict in TableIssues(id, cs) <==> exists j :: 0 <= j < |cs| && !cs[j].JObject?
  {
    if cs != [] {
      var t := Collect(cs);
      TableOfTally(id, cs);
      InThree(ItemNotDict, CountIssues(id, |cs|), t.issues, CrossIssues(id, t.values, t.descriptions, t.colors));
      CrossMessages(id, t.values, t.descriptions, t.colors);
      assert ItemNotDict in t.issues <==> exists j :: 0 <= j < |cs| && !cs[j].JObject? by {
        CollectIssuesConcat(cs);
        InConcat(IssueLists(cs), ItemNotDict);
        forall j | 0 <= j < |cs| ensures ItemNotDict in EntryIssues(cs[j]) <==> !cs[j].JObject? {
          ItemNotDictEntry(cs[j]);
        }
      }
    }
  }

  /** A table of an entry that is not an object followed by an entry
      without issues reports only that the first entry is not a dict. */
  lemma NotDictFirst(id: string, cs: seq<Json>, v: int, d: string, c: string)
    requires |cs| == 2 && !cs[0].JObject? && CleanRow(cs[1], v, d, c)
    ensures TableIssues(id, cs) == [ItemNotDict]
  {
    NotDictFirstTally(cs, v, d, c);
    SingleCross(id, v, d, c);
    TableOfTally(id, cs);
  }

  lemma NotDictFirstTally(cs: seq<Json>, v: int, d: string, c: string)
    requires |cs| == 2 && !cs[0].JObject? && CleanRow(cs[1], v, d, c)
    ensures Collect(cs) == Tally([ItemNotDict], [v], [d], [c])
  {
    NotDictRule(cs[0]);
    TwoEntries(cs);
  }

  /** The tally of a two-entry table: the first entry's issues and
      contributions, then the second's. */
  lemma TwoEntries(cs: seq<Json>)
    requires |cs| == 2
    ensures var t := Collect(cs);
      && t.issues == EntryIssues(cs[0]) + EntryIssues(cs[1])
      && t.values == EntryValues(cs[0]) + EntryValues(cs[1])
      && t.descriptions == EntryDescriptions(cs[0]) + EntryDescriptions(cs[1])
      && t.colors == EntryColors(cs[0]) + EntryColors(cs[1])
  {
    var t1 := Collect(cs[..1]);
    assert t1 == Tally(EntryIssues(cs[0]), EntryValues(cs[0]), EntryDescriptions(cs[0]), EntryColors(cs[0])) by {
      CollectStep(cs, 0);
      assert cs[..0] == [];
      EmptyTally(cs[..0]);
    }
    assert Collect(cs) == Tally(t1.issues + EntryIssues(cs[1]), t1.values + EntryValues(cs[1]),
      t1.descriptions + EntryDescriptions(cs[1]), t1.colors + EntryColors(cs[1])) by {
      CollectStep(cs, 1);
      assert cs[..2] == cs;
    }
  }

  lemma EmptyTally(cs: seq<Json>)
    requires cs == []
    ensures Collect(cs) == Tally([], [], [], [])
  {
  }

  /** One value, description and color pass together. */
  lemma SingleCross(id: string, v: int, d: string, c: string)
    ensures CrossIssues(id, [v], [d], [c]) == []
  {
    CrossRule(id, [v], [d], [c]);
  }

  /** The test table of a string followed by a valid row reports exactly
      that an item is not a dict. */
  lemma ItemNotDictExample(id: string)
    ensures TableIssues(id, [JString("not a dict"), Row(2, "B", "violet")]) == [ItemNotDict]
  {
    assert ColorAccepted("violet");
    RowRule(2, "B", "violet");
    NotDictFirst(id, [JString("not a dict"), Row(2, "B", "violet")], 2, "B", "violet");
  }

  /** Without summaries, with summaries that are not an object, or without
      `eo:bands`, there is nothing to report. */
  lemma NoBandsRule(node: Node)
    requires
      || SUMMARIES !in Keys(node.payload)
      || !Get(node.payload, SUMMARIES).value.JObject?
      || EO_BANDS !in Keys(Get(node.payload, SUMMARIES).value.members)
    ensures Supported(node) && Issues(node) == []
  {
  }

  /** An `eo:bands` that is a string, or an object none of whose keys
      contains `gee:classes`, is iterated without a report. */
  lemma SkippedBandsRule(node: Node, s: seq<Member>, bands: Json)
    requires Get(node.payload, SUMMARIES) == Some(JObject(s)) && Get(s, EO_BANDS) == Some(bands)
    requires bands.JString? || (bands.JObject? && forall k :: k in Keys(bands.members) ==> !Contains(k, CLASSES))
    ensures Supported(node) && Issues(node) == []
  {
  }

  /** A string or list element of `eo:bands` that passes the `in` test is
      skipped: it has no issues. */
  lemma SkippedItemRule(id: string, b: Json)
    requires BandSupported(b) && !b.JObject?
    ensures b.JString? || b.JArray?
    ensures ItemIssues(id, b) == []
  {
  }

  /** A band without `gee:classes` has no issues, and one whose
      `gee:classes` is not a list has exactly that issue. */
  lemma BandRule(id: string, band: seq<Member>)
    ensures CLASSES !in Keys(band) ==> BandIssues(id, band) == []
    ensures CLASSES in Keys(band) && !Get(band, CLASSES).value.JArray? ==> BandIssues(id, band) == [ClassesNotList]
    ensures forall cs :: Get(band, CLASSES) == Some(JArray(cs)) ==> BandIssues(id, band) == TableIssues(id, cs)
  {
  }

  /** The bands' issues, band by band. */
  function BandLists(id: string, bands: seq<Json>): (r: seq<seq<Message>>)
    ensures |r| == |bands| && forall i :: 0 <= i < |bands| ==> r[i] == ItemIssues(id, bands[i])
  {
    seq(|bands|, i requires 0 <= i < |bands| => ItemIssues(id, bands[i]))
  }

  lemma {:induction false} BandsConcat(id: string, bands: seq<Json>)
    ensures BandsIssues(id, bands) == Concat(BandLists(id, bands))
  {
    if bands != [] {
      var n := |bands| - 1;
      BandsConcat(id, bands[..n]);
      assert BandLists(id, bands)[..n] == BandLists(id, bands[..n]);
    }
  }

  /** An issue is reported for a node exactly when it is reported for one of
      its bands. */
  lemma BandsIssuesRule(id: string, bands: seq<Json>, m: Message)
    ensures m in BandsIssues(id, bands) <==> exists i :: 0 <= i < |bands| && m in ItemIssues(id, bands[i])
  {
    BandsConcat(id, bands);
    InConcat(BandLists(id, bands), m);
  }

  /** A node with a single band has the issues of that band. */
  lemma SingleBandRule(node: Node, summaries: seq<Member>, band: seq<Member>)
    requires Get(node.payload, SUMMARIES) == Some(JObject(summaries))
    requires Get(summaries, EO_BANDS) == Some(JArray([JObject(band)]))
    ensures Supported(node) && Issues(node) == BandIssues(node.id, band)
  {
    OneBand(node.id, [JObject(band)]);
  }

  lemma OneBand(id: string, bands: seq<Json>)
    requires |bands| == 1
    ensures BandsIssues(id, bands) == ItemIssues(id, bands[0])
  {
    BandsIssuesStep(id, bands, 0);
    assert bands[..0] == [] && bands[..1] == bands;
    var b := ItemIssues(id, bands[0]);
    assert [] + b == b;
  }

  /** 256 valid classes, with increasing values and distinct descriptions
      and colors, for the test dataset `a/collection`: the only issue is that
      there are too many. */
  lemma TooManyExample(cs: seq<Json>, vs: seq<int>, ds: seq<string>, colors: seq<string>)
    requires |cs| == 256 && |vs| == 256 && |ds| == 256 && |colors| == 256
    requires forall j :: 0 <= j < |cs| ==> cs[j] == Row(vs[j], ds[j], colors[j])
    requires forall j :: 0 <= j < |cs| ==> 1 <= |ds[j]| <= MAX_DESCRIPTION && ColorAccepted(colors[j])
    requires forall i, j :: 0 <= i < j < |cs| ==> vs[i] < vs[j]
    requires Distinct(ds) && Distinct(colors)
    ensures TableIssues("a/collection", cs) == [TooManyClasses(256)]
  {
    var id := "a/collection";
    assert 'L' !in id && 'U' !in id;
    ContainsFirstChar(id, MANY_CLASSES_OK[0]);
    ContainsFirstChar(id, MANY_CLASSES_OK[1]);
    assert !ManyClassesAllowed(id);
    ValidTableIssues(id, cs, vs, ds, colors);
  }

  /** The bands' issues after one more band. */
  lemma BandsIssuesStep(id: string, bands: seq<Json>, i: nat)
    requires i < |bands|
    ensures BandsIssues(id, bands[..i + 1]) == BandsIssues(id, bands[..i]) + ItemIssues(id, bands[i])
  {
    assert bands[..i + 1][..i] == bands[..i];
  }

  /** The check itself, band by band. */
  method Run(node: Node) returns (issues: seq<Message>)
    requires Supported(node)
    ensures issues == Issues(node)
  {
    issues := [];
    var summaries := Get(node.payload, SUMMARIES);
    if summaries.None? || !summaries.value.JObject? {
      return;
    }
    var bandsField := Get(summaries.value.members, EO_BANDS);
    if bandsField.None? || !bandsField.value.JArray? {
      return;
    }
    var bands := bandsField.value.items;
    var i := 0;
    while i < |bands|
      invariant 0 <= i <= |bands|
      invariant issues == BandsIssues(node.id, bands[..i])
    {
      BandsIssuesStep(node.id, bands, i);
      var found := CheckBand(node.id, bands[i]);
      issues := issues + found;
      i := i + 1;
    }
    assert bands[..|bands|] == bands;
  }

  /** One element of `eo:bands`: nothing unless it is an object with
      `gee:classes`, one issue when that is not a list, and otherwise the
      table's issues. */
  method CheckBand(id: string, b: Json) returns (issues: seq<Message>)
    ensures issues == ItemIssues(id, b)
  {
    issues := [];
    if !b.JObject? {
      return;
    }
    var classesField := Get(b.members, CLASSES);
    if classesField.Some? {
      if !classesField.value.JArray? {
        issues := [ClassesNotList];
      } else {
        issues := CheckTable(id, classesField.value.items);
      }
    }
  }

  /** One band's `gee:classes` list: its size, then entry by entry,
      accumulating the values, descriptions and colors, and then the
      entries together. */
  method CheckTable(id: string, classes: seq<Json>) returns (issues: seq<Message>)
    ensures issues == TableIssues(id, classes)
  {
    var counted := CheckCount(id, |classes|);
    if |classes| == 0 {
      return counted;
    }
    var entryIssues: seq<Message> := [];
    var values: seq<int> := [];
    var descriptions: seq<string> := [];
    var colors: seq<string> := [];
    var j := 0;
    while j < |classes|
      invariant 0 <= j <= |classes|
      invariant entryIssues == Collect(classes[..j]).issues
      invariant values == Collect(classes[..j]).values
      invariant descriptions == Collect(classes[..j]).descriptions
      invariant colors == Collect(classes[..j]).colors
    {
      CollectStep(classes, j);
      var found, value, description, color := CheckEntry(classes[j]);
      entryIssues := entryIssues + found;
      values := values + value;
      descriptions := descriptions + description;
      colors := colors + color;
      j := j + 1;
    }
    assert classes[..|classes|] == classes;
    var cross := CheckTogether(id, values, descriptions, colors);
    issues := counted + entryIssues + cross;
  }

  /** The size of a table of `n` entries: too few outside the datasets
      allowed one class, too many outside those allowed more. */
  method CheckCount(id: string, n: nat) returns (issues: seq<Message>)
    ensures issues == CountIssues(id, n)
  {
    issues := [];
    if n < MIN_CLASSES && id !in ONE_CLASS {
      issues := issues + [TooFewClasses];
    }
    if n > MAX_CLASSES && !ManyClassesAllowed(id) {
      issues := issues + [TooManyClasses(n)];
    }
  }

  /** The entries together: values repeated or out of order, descriptions
      or colors repeated outside the datasets allowed them. */
  method CheckTogether(id: string, values: seq<int>, descriptions: seq<string>, colors: seq<string>)
    returns (issues: seq<Message>)
    ensures issues == CrossIssues(id, values, descriptions, colors)
  {
    var duplicateValues := |ToSet(values)| != |values|;
    var unsorted := values != SortInts(values);
    var duplicateDescriptions := |ToSet(descriptions)| != |descriptions| && id !in DUPLICATE_DESCRIPTIONS;
    var duplicateColors := |ToSet(colors)| != |colors| && id !in DUPLICATE_COLORS;
    issues := [];
    if duplicateValues {
      issues := issues + [DuplicateValues];
    }
    assert issues == (if duplicateValues then [DuplicateValues] else []);
    if unsorted {
      issues := issues + [UnsortedValues];
    }
    assert issues == (if duplicateValues then [DuplicateValues] else []) + (if unsorted then [UnsortedValues] else []);
    if duplicateDescriptions {
      issues := issues + [DuplicateDescriptions];
    }
    if duplicateColors {
      issues := issues + [DuplicateColors];
    }
  }

  /** One entry: its issues, and the value, description and color (none or
      one of each) it adds to the table's lists. */
  method CheckEntry(a: Json) returns (issues: seq<Message>, value: seq<int>, description: seq<string>, color: seq<string>)
    ensures issues == EntryIssues(a)
    ensures value == EntryValues(a) && description == EntryDescriptions(a) && color == EntryColors(a)
  {
    if !a.JObject? {
      issues, value, description, color := [ItemNotDict], [], [], [];
      return;
    }
    var e := a.members;
    var keyIssues := CheckKeys(e);
    var valueIssues;
    valueIssues, value := CheckValue(e);
    var descriptionIssues;
    descriptionIssues, description := CheckDescription(e);
    var colorIssues;
    colorIssues, color := CheckColor(e);
    issues := keyIssues + valueIssues + descriptionIssues + colorIssues;
  }

  method CheckKeys(e: seq<Member>) returns (issues: seq<Message>)
    ensures issues == KeyIssues(e)
  {
    issues := [];
    var keys := Keys(e);
    if !(REQUIRED <= keys) {
      issues := issues + [MissingKeys(REQUIRED - keys)];
    }
    assert issues == MissingKeyIssues(e);
    var extra := ExtraKeys(e, FIELDS);
    if |extra| == 1 {
      issues := issues + [UnexpectedKey(extra[0])];
    } else if |extra| > 1 {
      issues := issues + [UnexpectedKeys(extra)];
    }
  }

  method CheckValue(e: seq<Member>) returns (issues: seq<Message>, value: seq<int>)
    ensures issues == ValueIssues(e) && value == EntryValues(JObject(e))
  {
    issues, value := [], [];
    var v := Get(e, VALUE);
    if v.Some? {
      var n := AsInt(v.value);
      if n.None? {
        issues := issues + [ValueNotInteger(v.value)];
      } else {
        value := value + [n.value];
      }
    }
  }

  method CheckDescription(e: seq<Member>) returns (issues: seq<Message>, description: seq<string>)
    ensures issues == DescriptionIssues(e) && description == EntryDescriptions(JObject(e))
  {
    issues, description := [], [];
    var d := Get(e, DESCRIPTION);
    if d.Some? {
      if !d.value.JString? {
        issues := issues + [DescriptionNotString(d.value)];
      } else {
        var text := d.value.str;
        description := description + [text];
        if |text| < 1 {
          issues := issues + [InvalidDescription(text)];
        } else if |text| > MAX_DESCRIPTION {
          issues := issues + [DescriptionTooLong(|text|)];
        }
      }
    }
  }

  method CheckColor(e: seq<Member>) returns (issues: seq<Message>, color: seq<string>)
    ensures issues == ColorIssues(e) && color == EntryColors(JObject(e))
  {
    issues, color := [], [];
    var c := Get(e, COLOR);
    if c.Some? {
      if !c.value.JString? {
        issues := issues + [ColorNotString(c.value)];
      } else {
        var name := c.value.str;
        color := color + [name];
        if !HexColor(name) && name !in COLOR_NAMES {
          issues := issues + [InvalidColor(name)];
        }
      }
    }
  }
}
