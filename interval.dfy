/** The `gee:interval` check. The optional `gee:interval` record of a
    collection says how often data arrive, for example
    `{type: 'cadence', unit: 'year', interval: 1}`; catalogs may not have
    one. The record's issues are those of its keys, its `type`, its `unit`,
    its `interval`, its `description` and its `name`, in that order. */
module Interval {
  import opened Json
  import opened Stac
  import opened Text

  const CUSTOM_TIME_UNIT := "custom_time_unit"
  const DESCRIPTION := "description"
  const GEE_INTERVAL := "gee:interval"
  const INTERVAL := "interval"
  const NAME := "name"
  const TYPE := "type"
  const UNIT := "unit"

  const FIELDS: set<string> := {DESCRIPTION, INTERVAL, NAME, TYPE, UNIT}
  const TYPES: set<string> := {"cadence", "climatological_interval", "revisit_interval"}
  const UNITS: set<string> := {CUSTOM_TIME_UNIT, "day", "hour", "minute", "month", "year"}

  /** The largest interval allowed, except for the one dataset below. */
  const MAX_INTERVAL := 32
  const LONG_INTERVAL_ID := "EO1/HYPERION"
  const MIN_DESCRIPTION := 10
  const MAX_DESCRIPTION := 200
  const MIN_NAME := 2
  const MAX_NAME := 200

  datatype Message =
    | CatalogHasInterval                     // 'Catalogs cannot have "gee:interval"'
    | NotADict                               // 'gee:interval must be a dict'
    | UnexpectedKey(key: string)
    | UnexpectedKeys(keys: seq<string>)      // sorted
    | MissingType
    | UnknownType(value: Json)
    | MissingUnit
    | UnknownUnit(value: Json)
    | CustomUnitNeedsDescription
    | CustomUnitNeedsName
    | MissingInterval
    | IntervalNotNumber
    | IntervalNotPositive
    | IntervalTooLarge(interval: int)
    | DescriptionNotString
    | DescriptionTooShort
    | DescriptionTooLong(length: nat)
    | NameNotString
    | NameTooShort
    | NameTooLong(length: nat)

  /** Python `v in names` for a set of strings: only a string can be in it. */
  predicate InStrings(v: Json, names: set<string>)
  {
    v.JString? && v.str in names
  }

  /** The value under `k`, if any, can be looked up in a `frozenset`: lists
      and dicts are unhashable and make `in` raise. */
  predicate HashableField(o: seq<Member>, k: string)
  {
    match Get(o, k)
    case Some(JArray(_)) => false
    case Some(JObject(_)) => false
    case _ => true
  }

  /** The inputs on which the check runs to its end instead of raising: the
      `type` and `unit` of a collection's record are hashable. */
  predicate Supported(node: Node)
  {
    match Get(node.payload, GEE_INTERVAL)
    case Some(JObject(o)) => node.kind == Collection ==> HashableField(o, TYPE) && HashableField(o, UNIT)
    case _ => true
  }

  /** The unexpected-key issue: none when every key is known, the single key
      when there is one, and all of them sorted when there are more. */
  function ExtraKeyIssues(o: seq<Member>): seq<Message>
  {
    var extra := ExtraKeys(o, FIELDS);
    if |extra| == 1 then [UnexpectedKey(extra[0])]
    else if |extra| > 1 then [UnexpectedKeys(extra)]
    else []
  }

  /** Unknown keys: one issue naming the key when there is exactly one, one
      issue listing them all in sorted order when there are more, none
      otherwise. */
  lemma ExtraKeysRule(o: seq<Member>)
    ensures ExtraKeyIssues(o) == [] <==> Keys(o) <= FIELDS
    ensures forall k :: ExtraKeyIssues(o) == [UnexpectedKey(k)] <==> Keys(o) - FIELDS == {k}
    ensures forall ks :: ExtraKeyIssues(o) == [UnexpectedKeys(ks)] <==>
      (|Keys(o) - FIELDS| >= 2 && StrictlySorted(ks) && forall x :: x in ks <==> x in Keys(o) - FIELDS)
  {
    var extra := ExtraKeys(o, FIELDS);
    forall ks | StrictlySorted(ks) && (forall x :: x in ks <==> x in Keys(o) - FIELDS)
      ensures ks == extra
    {
      SortedUnique(ks, extra);
    }
    if |extra| == 1 {
      assert Keys(o) - FIELDS == {extra[0]};
    }
  }

  function TypeIssues(o: seq<Member>): seq<Message>
    requires HashableField(o, TYPE)
  {
    match Get(o, TYPE)
    case None => [MissingType]
    case Some(t) => if InStrings(t, TYPES) then [] else [UnknownType(t)]
  }

  function UnitIssues(o: seq<Member>): seq<Message>
    requires HashableField(o, UNIT)
  {
    match Get(o, UNIT)
    case None => [MissingUnit]
    case Some(u) =>
      (if InStrings(u, UNITS) then [] else [UnknownUnit(u)]) +
      (if u == JString(CUSTOM_TIME_UNIT) then
         (if DESCRIPTION !in Keys(o) then [CustomUnitNeedsDescription] else []) +
         (if NAME !in Keys(o) then [CustomUnitNeedsName] else [])
       else [])
  }

  function IntervalIssues(id: string, o: seq<Member>): seq<Message>
  {
    match Get(o, INTERVAL)
    case None => [MissingInterval]
    case Some(v) =>
      match AsInt(v)
      case None => [IntervalNotNumber]
      case Some(n) =>
        (if n <= 0 then [IntervalNotPositive] else []) +
        (if n > MAX_INTERVAL && id != LONG_INTERVAL_ID then [IntervalTooLarge(n)] else [])
  }

  function DescriptionIssues(o: seq<Member>): seq<Message>
  {
    match Get(o, DESCRIPTION)
    case None => []
    case Some(JString(d)) =>
      (if |d| < MIN_DESCRIPTION then [DescriptionTooShort] else []) +
      (if |d| > MAX_DESCRIPTION then [DescriptionTooLong(|d|)] else [])
    case Some(_) => [DescriptionNotString]
  }

  function NameIssues(o: seq<Member>): seq<Message>
  {
    match Get(o, NAME)
    case None => []
    case Some(JString(d)) =>
      (if |d| < MIN_NAME then [NameTooShort] else []) +
      (if |d| > MAX_NAME then [NameTooLong(|d|)] else [])
    case Some(_) => [NameNotString]
  }

  /** The issues the check reports for a node. */
  function Run(node: Node): seq<Message>
    requires Supported(node)
  {
    match Get(node.payload, GEE_INTERVAL)
    case None => []
    case Some(record) =>
      if node.kind == Catalog then [CatalogHasInterval]
      else
        match record
        case JObject(o) => RecordIssues(node.id, o)
        case _ => [NotADict]
  }

  /** The issues of a collection's record `o`, field by field. */
  function RecordIssues(id: string, o: seq<Member>): seq<Message>
    requires HashableField(o, TYPE) && HashableField(o, UNIT)
  {
    ExtraKeyIssues(o) + TypeIssues(o) + UnitIssues(o) + IntervalIssues(id, o) +
    DescriptionIssues(o) + NameIssues(o)
  }

  /** `node` is a collection whose `gee:interval` record is the object `o`
      and the check runs to its end on it. */
  predicate Record(node: Node, o: seq<Member>)
  {
    node.kind == Collection && Get(node.payload, GEE_INTERVAL) == Some(JObject(o)) &&
    HashableField(o, TYPE) && HashableField(o, UNIT)
  }

  /** On a collection whose record is the object `o`, the check reports the
      record's issues. */
  lemma RecordRule(node: Node, o: seq<Member>)
    requires Record(node, o)
    ensures Supported(node)
    ensures Run(node) == RecordIssues(node.id, o)
  {
    var record := Get(node.payload, GEE_INTERVAL).value;
    assert record.members == o;
  }

  /** Without a `gee:interval` field there is nothing to report. */
  lemma AbsentRule(node: Node)
    requires GEE_INTERVAL !in Keys(node.payload)
    ensures Supported(node) && Run(node) == []
  {
  }

  /** A catalog with a `gee:interval` field gets that one issue only. */
  lemma CatalogRule(node: Node)
    requires node.kind == Catalog && GEE_INTERVAL in Keys(node.payload)
    ensures Supported(node) && Run(node) == [CatalogHasInterval]
  {
  }

  /** A collection whose `gee:interval` is not an object gets that one issue
      only. */
  lemma NotADictRule(node: Node)
    requires node.kind == Collection && GEE_INTERVAL in Keys(node.payload)
    requires !Get(node.payload, GEE_INTERVAL).value.JObject?
    ensures Supported(node) && Run(node) == [NotADict]
  {
  }

  /** `type`: missing, unknown, or one of the known types. */
  lemma TypeRule(o: seq<Member>)
    requires HashableField(o, TYPE)
    ensures TypeIssues(o) == [MissingType] <==> TYPE !in Keys(o)
    ensures forall v :: TypeIssues(o) == [UnknownType(v)] <==> (Get(o, TYPE) == Some(v) && !InStrings(v, TYPES))
    ensures TypeIssues(o) == [] <==> (Get(o, TYPE).Some? && InStrings(Get(o, TYPE).value, TYPES))
  {
  }

  /** `unit`: missing, or else unknown and, for the custom unit, a missing
      `description` and a missing `name`, each reported on its own. */
  lemma UnitRule(o: seq<Member>)
    requires HashableField(o, UNIT)
    ensures UnitIssues(o) == [MissingUnit] <==> UNIT !in Keys(o)
    ensures forall v :: UnknownUnit(v) in UnitIssues(o) <==> (Get(o, UNIT) == Some(v) && !InStrings(v, UNITS))
    ensures CustomUnitNeedsDescription in UnitIssues(o) <==>
      (Get(o, UNIT) == Some(JString(CUSTOM_TIME_UNIT)) && DESCRIPTION !in Keys(o))
    ensures CustomUnitNeedsName in UnitIssues(o) <==>
      (Get(o, UNIT) == Some(JString(CUSTOM_TIME_UNIT)) && NAME !in Keys(o))
    ensures UnitIssues(o) == [] <==>
      && Get(o, UNIT).Some? && InStrings(Get(o, UNIT).value, UNITS)
      && (Get(o, UNIT).value == JString(CUSTOM_TIME_UNIT) ==> DESCRIPTION in Keys(o) && NAME in Keys(o))
  {
    match Get(o, UNIT)
    case None =>
    case Some(u) =>
      var unknown := if InStrings(u, UNITS) then [] else [UnknownUnit(u)];
      var needs := if DESCRIPTION !in Keys(o) then [CustomUnitNeedsDescription] else [];
      var needsName := if NAME !in Keys(o) then [CustomUnitNeedsName] else [];
      if u == JString(CUSTOM_TIME_UNIT) {
        assert InStrings(u, UNITS);
        assert UnitIssues(o) == needs + needsName;
      } else {
        assert UnitIssues(o) == unknown;
      }
  }

  /** `interval`: missing, not an integer, at most 0, or above 32 outside
      EO1/HYPERION; at most one of these is reported. */
  lemma IntervalRule(id: string, o: seq<Member>)
    ensures IntervalIssues(id, o) == [MissingInterval] <==> INTERVAL !in Keys(o)
    ensures IntervalIssues(id, o) == [IntervalNotNumber] <==>
      (INTERVAL in Keys(o) && AsInt(Get(o, INTERVAL).value).None?)
    ensures IntervalIssues(id, o) == [IntervalNotPositive] <==>
      (INTERVAL in Keys(o) && AsInt(Get(o, INTERVAL).value).Some? && AsInt(Get(o, INTERVAL).value).value <= 0)
    ensures forall n :: IntervalIssues(id, o) == [IntervalTooLarge(n)] <==>
      (INTERVAL in Keys(o) && AsInt(Get(o, INTERVAL).value) == Some(n) && n > MAX_INTERVAL && id != LONG_INTERVAL_ID)
    ensures |IntervalIssues(id, o)| <= 1
    ensures IntervalIssues(id, o) == [] <==>
      && Get(o, INTERVAL).Some? && AsInt(Get(o, INTERVAL).value).Some?
      && 0 < AsInt(Get(o, INTERVAL).value).value
      && (AsInt(Get(o, INTERVAL).value).value <= MAX_INTERVAL || id == LONG_INTERVAL_ID)
  {
  }

  /** `description`, where present: not a string, shorter than 10 or longer
      than 200 characters; at most one of these is reported. */
  lemma DescriptionRule(o: seq<Member>)
    ensures DescriptionIssues(o) == [DescriptionNotString] <==>
      (DESCRIPTION in Keys(o) && !Get(o, DESCRIPTION).value.JString?)
    ensures DescriptionIssues(o) == [DescriptionTooShort] <==>
      (DESCRIPTION in Keys(o) && Get(o, DESCRIPTION).value.JString? &&
       |Get(o, DESCRIPTION).value.str| < MIN_DESCRIPTION)
    ensures forall n :: DescriptionIssues(o) == [DescriptionTooLong(n)] <==>
      (DESCRIPTION in Keys(o) && Get(o, DESCRIPTION).value.JString? &&
       n == |Get(o, DESCRIPTION).value.str| > MAX_DESCRIPTION)
    ensures |DescriptionIssues(o)| <= 1
    ensures DescriptionIssues(o) == [] <==>
      (Get(o, DESCRIPTION).Some? ==>
         Get(o, DESCRIPTION).value.JString? &&
         MIN_DESCRIPTION <= |Get(o, DESCRIPTION).value.str| <= MAX_DESCRIPTION)
  {
  }

  /** `name`, where present: not a string, shorter than 2 or longer than 200
      characters; at most one of these is reported. */
  lemma NameRule(o: seq<Member>)
    ensures NameIssues(o) == [NameNotString] <==> (NAME in Keys(o) && !Get(o, NAME).value.JString?)
    ensures NameIssues(o) == [NameTooShort] <==>
      (NAME in Keys(o) && Get(o, NAME).value.JString? && |Get(o, NAME).value.str| < MIN_NAME)
    ensures forall n :: NameIssues(o) == [NameTooLong(n)] <==>
      (NAME in Keys(o) && Get(o, NAME).value.JString? && n == |Get(o, NAME).value.str| > MAX_NAME)
    ensures |NameIssues(o)| <= 1
    ensures NameIssues(o) == [] <==>
      (Get(o, NAME).Some? ==> Get(o, NAME).value.JString? && MIN_NAME <= |Get(o, NAME).value.str| <= MAX_NAME)
  {
  }

  /** A record with nothing to report, stated field by field: only known
      keys; a known `type` and `unit`; a custom unit comes with a
      `description` and a `name`; an integer `interval` from 1 to 32 (any
      positive one for EO1/HYPERION); and a `description` of 10 to 200
      characters and a `name` of 2 to 200, where present. */
  predicate WellFormed(id: string, o: seq<Member>)
  {
    && Keys(o) <= FIELDS
    && Get(o, TYPE).Some? && InStrings(Get(o, TYPE).value, TYPES)
    && Get(o, UNIT).Some? && InStrings(Get(o, UNIT).value, UNITS)
    && (Get(o, UNIT).value == JString(CUSTOM_TIME_UNIT) ==> DESCRIPTION in Keys(o) && NAME in Keys(o))
    && Get(o, INTERVAL).Some? && AsInt(Get(o, INTERVAL).value).Some?
    && 0 < AsInt(Get(o, INTERVAL).value).value
    && (AsInt(Get(o, INTERVAL).value).value <= MAX_INTERVAL || id == LONG_INTERVAL_ID)
    && (Get(o, DESCRIPTION).Some? ==>
          Get(o, DESCRIPTION).value.JString? &&
          MIN_DESCRIPTION <= |Get(o, DESCRIPTION).value.str| <= MAX_DESCRIPTION)
    && (Get(o, NAME).Some? ==>
          Get(o, NAME).value.JString? && MIN_NAME <= |Get(o, NAME).value.str| <= MAX_NAME)
  }

  /** A record has no issues exactly when it is well formed. */
  lemma RecordAcceptedIff(id: string, o: seq<Member>)
    requires HashableField(o, TYPE) && HashableField(o, UNIT)
    ensures RecordIssues(id, o) == [] <==> WellFormed(id, o)
  {
    ExtraKeysRule(o);
    TypeRule(o);
    UnitRule(o);
    IntervalRule(id, o);
    DescriptionRule(o);
    NameRule(o);
    EmptyConcat(ExtraKeyIssues(o), TypeIssues(o), UnitIssues(o), IntervalIssues(id, o),
      DescriptionIssues(o), NameIssues(o));
  }

  lemma EmptyConcat(a: seq<Message>, b: seq<Message>, c: seq<Message>, d: seq<Message>, e: seq<Message>, f: seq<Message>)
    ensures a + b + c + d + e + f == [] <==> a == [] && b == [] && c == [] && d == [] && e == [] && f == []
  {
    assert |a + b + c + d + e + f| == |a| + |b| + |c| + |d| + |e| + |f|;
  }

  /** The check finds nothing exactly when the node has no `gee:interval`,
      or is a collection whose record is well formed. */
  lemma AcceptedIff(node: Node)
    requires Supported(node)
    ensures Run(node) == [] <==>
      || GEE_INTERVAL !in Keys(node.payload)
      || (&& node.kind == Collection && Get(node.payload, GEE_INTERVAL).value.JObject?
          && WellFormed(node.id, Get(node.payload, GEE_INTERVAL).value.members))
  {
    match Get(node.payload, GEE_INTERVAL)
    case None =>
    case Some(record) =>
      if node.kind == Collection && record.JObject? {
        RecordAcceptedIff(node.id, record.members);
      }
  }

  /** The record `{type: t, unit: u, interval: n}`. */
  function CadenceRecord(t: string, u: string, n: int): (o: seq<Member>)
    ensures Keys(o) == {TYPE, UNIT, INTERVAL}
    ensures Get(o, TYPE) == Some(JString(t)) && Get(o, UNIT) == Some(JString(u))
    ensures Get(o, INTERVAL) == Some(JInt(n))
    ensures Get(o, DESCRIPTION) == None && Get(o, NAME) == None
  {
    var o := [Member(TYPE, JString(t)), Member(UNIT, JString(u)), Member(INTERVAL, JInt(n))];
    assert TYPE[0] == 't' && UNIT[0] == 'u' && INTERVAL[0] == 'i' && DESCRIPTION[0] == 'd' && NAME[0] == 'n';
    assert Get(o[2..], NAME) == None && Get(o[2..], DESCRIPTION) == None;
    assert Get(o[1..], NAME) == None && Get(o[1..], DESCRIPTION) == None;
    assert Keys(o) == {TYPE, UNIT, INTERVAL};
    o
  }

  /** A record of a known type and a known unit other than the custom one,
      with no other field, is judged on its interval alone. */
  lemma CadenceRule(node: Node, t: string, u: string, n: int)
    requires node.kind == Collection
    requires node.payload == [Member(GEE_INTERVAL, JObject(CadenceRecord(t, u, n)))]
    requires t in TYPES && u in UNITS && u != CUSTOM_TIME_UNIT
    ensures Supported(node)
    ensures Run(node) == IntervalIssues(node.id, CadenceRecord(t, u, n))
  {
    var o := CadenceRecord(t, u, n);
    assert Get(node.payload, GEE_INTERVAL) == Some(JObject(o));
    ExtraKeysRule(o);
    assert ExtraKeyIssues(o) == [] && TypeIssues(o) == [] && UnitIssues(o) == [];
    assert DescriptionIssues(o) == [] && NameIssues(o) == [];
    RecordRule(node, o);
  }

  /** The record of the module documentation, `{type: 'cadence', unit:
      'year', interval: 1}`, on any collection, is accepted. */
  lemma DocumentedExample(node: Node)
    requires node.kind == Collection
    requires node.payload == [Member(GEE_INTERVAL, JObject(CadenceRecord("cadence", "year", 1)))]
    ensures Supported(node) && Run(node) == []
  {
    assert "cadence" in TYPES && "year" in UNITS;
    CadenceRule(node, "cadence", "year", 1);
  }

  /** A record that is otherwise well formed, with the custom unit and a
      description but no name, gets exactly the issue that the name is
      missing. */
  lemma CustomUnitWithoutName(node: Node, t: string, n: int, d: string)
    requires node.kind == Collection
    requires Get(node.payload, GEE_INTERVAL) == Some(JObject(CustomUnitRecord(t, n, d)))
    requires t in TYPES && 0 < n <= MAX_INTERVAL && MIN_DESCRIPTION <= |d| <= MAX_DESCRIPTION
    ensures Supported(node) && Run(node) == [CustomUnitNeedsName]
  {
    var o := CustomUnitRecord(t, n, d);
    CustomUnitKeysAndType(t, n, d);
    CustomUnitUnit(t, n, d);
    CustomUnitRest(node.id, t, n, d);
    RecordRule(node, o);
  }

  // The issues of `CustomUnitRecord(t, n, d)`, a few fields at a time.

  lemma CustomUnitKeysAndType(t: string, n: int, d: string)
    requires t in TYPES
    ensures ExtraKeyIssues(CustomUnitRecord(t, n, d)) == []
    ensures TypeIssues(CustomUnitRecord(t, n, d)) == []
  {
    assert Keys(CustomUnitRecord(t, n, d)) - FIELDS == {};
  }

  lemma CustomUnitUnit(t: string, n: int, d: string)
    ensures UnitIssues(CustomUnitRecord(t, n, d)) == [CustomUnitNeedsName]
  {
  }

  lemma CustomUnitRest(id: string, t: string, n: int, d: string)
    requires 0 < n <= MAX_INTERVAL && MIN_DESCRIPTION <= |d| <= MAX_DESCRIPTION
    ensures IntervalIssues(id, CustomUnitRecord(t, n, d)) == []
    ensures DescriptionIssues(CustomUnitRecord(t, n, d)) == []
    ensures NameIssues(CustomUnitRecord(t, n, d)) == []
  {
  }

  /** The record `{type: t, unit: 'custom_time_unit', interval: n,
      description: d}`. */
  function CustomUnitRecord(t: string, n: int, d: string): (o: seq<Member>)
    ensures Keys(o) == {TYPE, UNIT, INTERVAL, DESCRIPTION}
    ensures Get(o, TYPE) == Some(JString(t))
    ensures Get(o, UNIT) == Some(JString(CUSTOM_TIME_UNIT)) && CUSTOM_TIME_UNIT in UNITS
    ensures Get(o, INTERVAL) == Some(JInt(n))
    ensures Get(o, DESCRIPTION) == Some(JString(d)) && Get(o, NAME) == None
  {
    var c := CadenceRecord(t, CUSTOM_TIME_UNIT, n);
    var m := Member(DESCRIPTION, JString(d));
    assert TYPE[0] == 't' && UNIT[0] == 'u' && INTERVAL[0] == 'i' && DESCRIPTION[0] == 'd' && NAME[0] == 'n';
    assert DESCRIPTION !in Keys(c) && NAME !in Keys(c);
    GetSnoc(c, m, TYPE);
    GetSnoc(c, m, UNIT);
    GetSnoc(c, m, INTERVAL);
    GetSnoc(c, m, DESCRIPTION);
    GetSnoc(c, m, NAME);
    c + [m]
  }

  /** An interval of 33 days is too large, except for EO1/HYPERION. */
  lemma LongIntervalExample(node: Node)
    requires node.kind == Collection
    requires node.payload == [Member(GEE_INTERVAL, JObject(CadenceRecord("cadence", "day", 33)))]
    ensures Supported(node)
    ensures Run(node) == (if node.id == LONG_INTERVAL_ID then [] else [IntervalTooLarge(33)])
  {
    assert "cadence" in TYPES && "day" in UNITS;
    CadenceRule(node, "cadence", "day", 33);
  }
}
