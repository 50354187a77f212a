/** The JSON-like values a node's metadata is made of, and the type tests and
    dictionary lookups the checks do on them. */
module Json {
  import opened Text

  datatype Option<T> = None | Some(value: T)

  /** A parsed JSON value. An object keeps its members in document order, as
      a Python `dict` keeps insertion order. */
  datatype Json =
    | JNull
    | JBool(b: bool)
    | JInt(n: int)
    | JFloat(x: real)
    | JString(str: string)
    | JArray(items: seq<Json>)
    | JObject(members: seq<Member>)

  datatype Member = Member(key: string, value: Json)

  /** Python `set(d)`: the keys of an object. */
  function Keys(o: seq<Member>): set<string>
  {
    set m | m in o :: m.key
  }

  /** Python `d[k]` guarded by `k in d`. A Python dict holds each key once;
      the first member with the key is the one looked up. */
  function Get(o: seq<Member>, k: string): (r: Option<Json>)
    ensures r.Some? <==> k in Keys(o)
    ensures r.Some? ==> Member(k, r.value) in o
  {
    if |o| == 0 then None
    else if o[0].key == k then Some(o[0].value)
    else
      assert Keys(o) == {o[0].key} + Keys(o[1..]) by {
        assert o == [o[0]] + o[1..];
      }
      Get(o[1..], k)
  }

  /** Adding a member at the end of an object adds its key; a lookup finds
      the new member only when no earlier member has the key. */
  lemma {:induction false} GetSnoc(o: seq<Member>, m: Member, k: string)
    ensures Keys(o + [m]) == Keys(o) + {m.key}
    ensures Get(o + [m], k) ==
      if k in Keys(o) then Get(o, k) else if m.key == k then Some(m.value) else None
  {
    if |o| > 0 {
      GetSnoc(o[1..], m, k);
      assert (o + [m])[1..] == o[1..] + [m];
      assert Keys(o) == {o[0].key} + Keys(o[1..]) by {
        assert o == [o[0]] + o[1..];
      }
      assert Keys(o + [m]) == {o[0].key} + Keys(o[1..] + [m]) by {
        assert o + [m] == [o[0]] + (o[1..] + [m]);
      }
    }
  }

  /** Python `isinstance(v, int)`, which `bool` values also pass, as the
      integers 1 (`True`) and 0 (`False`). */
  function AsInt(v: Json): (r: Option<int>)
    ensures r.Some? <==> v.JInt? || v.JBool?
    ensures v.JInt? ==> r == Some(v.n)
  {
    match v
    case JInt(i) => Some(i)
    case JBool(b) => Some(if b then 1 else 0)
    case _ => None
  }

  /** The keys of an object outside `fields`, in Python's `sorted` order:
      `sorted(set(d).difference(fields))`. Its length is the number of such
      keys, which is what `len(extra_keys)` counts. */
  function ExtraKeys(o: seq<Member>, fields: set<string>): (r: seq<string>)
    ensures StrictlySorted(r)
    ensures forall k :: k in r <==> k in Keys(o) && k !in fields
    ensures |r| == |Keys(o) - fields|
  {
    var keys := seq(|o|, i requires 0 <= i < |o| => o[i].key);
    var outside := set k | k in keys && k !in fields;
    assert outside == Keys(o) - fields by {
      forall k ensures k in outside <==> k in Keys(o) - fields {
        if k in Keys(o) {
          var m :| m in o && m.key == k;
          var i :| 0 <= i < |o| && o[i] == m;
          assert keys[i] == k;
        }
      }
    }
    var r := SortedSet(Filter(keys, fields));
    assert forall k :: k in r <==> k in outside;
    StrictlySortedCard(r);
    assert (set k | k in r) == outside;
    r
  }

  /** The elements of `xs` that are not in `fields`, in order. */
  function Filter(xs: seq<string>, fields: set<string>): (r: seq<string>)
    ensures forall k :: k in r <==> k in xs && k !in fields
  {
    if |xs| == 0 then []
    else if xs[0] in fields then Filter(xs[1..], fields)
    else [xs[0]] + Filter(xs[1..], fields)
  }

  /** `ExtraKeys` is the one strictly sorted sequence of the keys outside
      `fields`. */
  lemma ExtraKeysUnique(o: seq<Member>, fields: set<string>, ks: seq<string>)
    ensures ks == ExtraKeys(o, fields) <==>
      StrictlySorted(ks) && forall x :: x in ks <==> x in Keys(o) - fields
  {
    if StrictlySorted(ks) && forall x :: x in ks <==> x in Keys(o) - fields {
      SortedUnique(ks, ExtraKeys(o, fields));
    }
  }
}
