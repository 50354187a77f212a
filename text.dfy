/** Python string operations the checks use, on `string`: a sequence of
    Unicode scalar values, which is a Python `str` without lone surrogates,
    so that `|s|` is `len(s)`. They are `str.split` and `str.join` on a
    one-character separator, `str.replace` of one character, `in` on
    strings, `str.startswith` (Dafny's prefix test `<=`), the parts of a
    `pathlib.PurePosixPath`, and Python's ordering of `str` values with
    `sorted(set(...))`. */
module Text {

  /** Python `s.split(sep)`: the pieces between separators, empty pieces
      included, so there is one more piece than there are separators. */
  function Split(s: string, sep: char): (r: seq<string>)
    ensures |r| >= 1
    ensures forall i :: 0 <= i < |r| ==> sep !in r[i]
  {
    if |s| == 0 then [""]
    else
      var rest := Split(s[1..], sep);
      if s[0] == sep then [""] + rest
      else [[s[0]] + rest[0]] + rest[1..]
  }

  /** Python `sep.join(parts)`. */
  function Join(parts: seq<string>, sep: string): string
  {
    if |parts| == 0 then ""
    else if |parts| == 1 then parts[0]
    else parts[0] + sep + Join(parts[1..], sep)
  }

  lemma JoinTwo(a: string, b: string, sep: string)
    ensures Join([a, b], sep) == a + sep + b
  {
    assert [a, b][1..] == [b];
  }

  lemma JoinThree(a: string, b: string, c: string, sep: string)
    ensures Join([a, b, c], sep) == a + sep + b + sep + c
  {
    assert [a, b, c][1..] == [b, c];
    JoinTwo(b, c, sep);
  }

  lemma JoinFour(a: string, b: string, c: string, d: string, sep: string)
    ensures Join([a, b, c, d], sep) == a + sep + b + sep + c + sep + d
  {
    assert [a, b, c, d][1..] == [b, c, d];
    JoinThree(b, c, d, sep);
  }

  /** Python `s.replace(from, to)` for one-character `from` and `to`. */
  function Replace(s: string, from: char, to: char): (r: string)
    ensures |r| == |s|
    ensures from != to ==> from !in r
  {
    if |s| == 0 then ""
    else [if s[0] == from then to else s[0]] + Replace(s[1..], from, to)
  }

  /** Python `sub in s` on strings: `sub` occurs somewhere in `s`. */
  predicate Contains(s: string, sub: string)
  {
    sub <= s || (|s| > 0 && Contains(s[1..], sub))
  }

  /** Joining the pieces of a split with the separator gives the string back. */
  lemma {:induction false} JoinSplit(s: string, sep: char)
    ensures Join(Split(s, sep), [sep]) == s
  {
    if |s| > 0 {
      JoinSplit(s[1..], sep);
      var rest := Split(s[1..], sep);
      if s[0] == sep {
        assert Split(s, sep) == [""] + rest;
        assert s == [sep] + s[1..];
      } else {
        var r := Split(s, sep);
        assert r == [[s[0]] + rest[0]] + rest[1..];
        if |rest| > 1 {
          assert Join(rest, [sep]) == rest[0] + [sep] + Join(rest[1..], [sep]);
          assert r[1..] == rest[1..];
        }
      }
    }
  }

  /** Replacing every separator by `c` is the same as splitting on the
      separator and joining the pieces with `c`; a name built with
      `id.replace('/', '_')` is therefore `'_'.join(id.split('/'))`. */
  lemma {:induction false} ReplaceIsJoinOfSplit(s: string, sep: char, c: char)
    ensures Replace(s, sep, c) == Join(Split(s, sep), [c])
  {
    if |s| > 0 {
      ReplaceIsJoinOfSplit(s[1..], sep, c);
      var rest := Split(s[1..], sep);
      var r := Split(s, sep);
      if s[0] == sep {
        assert r == [""] + rest;
      } else {
        assert r == [[s[0]] + rest[0]] + rest[1..];
        if |rest| > 1 {
          assert r[1..] == rest[1..];
        }
      }
    }
  }

  /** When `s` starts with `w` followed by the separator, and `w` holds no
      separator, the first piece of the split is `w` and the remaining
      pieces are those of the rest of `s`. */
  lemma {:induction false} SplitAfterWord(w: string, s: string, sep: char)
    requires w + [sep] <= s
    requires sep !in w
    ensures Split(s, sep) == [w] + Split(s[|w| + 1..], sep)
  {
    if |w| == 0 {
      assert s[1..] == s[|w| + 1..];
    } else {
      assert s[1..][|w| - 1 + 1..] == s[|w| + 1..];
      assert w[1..] + [sep] <= s[1..];
      SplitAfterWord(w[1..], s[1..], sep);
      assert [s[0]] + w[1..] == w;
    }
  }

  /** A string without the separator splits into itself alone. */
  lemma {:induction false} SplitNoSeparator(s: string, sep: char)
    requires sep !in s
    ensures Split(s, sep) == [s]
  {
    if |s| > 0 {
      SplitNoSeparator(s[1..], sep);
      assert [s[0]] + s[1..] == s;
    }
  }

  /** Splitting words joined with the separator gives the words back, when
      no word holds the separator. */
  lemma {:induction false} SplitJoin(ws: seq<string>, sep: char)
    requires |ws| >= 1
    requires forall i :: 0 <= i < |ws| ==> sep !in ws[i]
    ensures Split(Join(ws, [sep]), sep) == ws
  {
    if |ws| == 1 {
      SplitNoSeparator(ws[0], sep);
    } else {
      var rest := Join(ws[1..], [sep]);
      var s := Join(ws, [sep]);
      assert s == ws[0] + [sep] + rest;
      assert ws[0] + [sep] <= s;
      SplitAfterWord(ws[0], s, sep);
      assert s[|ws[0]| + 1..] == rest;
      SplitJoin(ws[1..], sep);
      assert ws == [ws[0]] + ws[1..];
    }
  }

  /** When `s` starts with `p` and `p` holds no separator, the first piece
      of the split starts with `p`. */
  lemma {:induction false} SplitHeadPrefix(p: string, s: string, sep: char)
    requires p <= s
    requires sep !in p
    ensures p <= Split(s, sep)[0]
  {
    if |p| > 0 {
      assert p[1..] <= s[1..];
      SplitHeadPrefix(p[1..], s[1..], sep);
      assert s[0] == p[0];
    }
  }

  /** The anchor that `pathlib.PurePosixPath` keeps as the first part of an
      absolute path: exactly two leading slashes are kept as `//`, any other
      number of leading slashes becomes `/`. */
  function Anchor(s: string): (r: seq<string>)
    ensures |r| <= 1
  {
    if "//" <= s && !("///" <= s) then ["//"]
    else if "/" <= s then ["/"]
    else []
  }

  /** The pieces `pathlib` keeps: it drops empty pieces (from repeated,
      leading or trailing slashes) and `.` pieces. */
  function Segments(pieces: seq<string>): (r: seq<string>)
    ensures forall i :: 0 <= i < |r| ==> r[i] != "" && r[i] != "." && r[i] in pieces
    ensures forall x :: x in pieces && x != "" && x != "." ==> x in r
  {
    if |pieces| == 0 then []
    else if pieces[0] == "" || pieces[0] == "." then Segments(pieces[1..])
    else [pieces[0]] + Segments(pieces[1..])
  }

  /** `pathlib.PurePosixPath(s).parts`. */
  function PathParts(s: string): seq<string>
  {
    Anchor(s) + Segments(Split(s, '/'))
  }

  /** A plain path part: non-empty, not `.`, and free of slashes. */
  predicate Word(w: string)
  {
    w != "" && w != "." && '/' !in w
  }

  predicate Words(ws: seq<string>)
  {
    forall i :: 0 <= i < |ws| ==> Word(ws[i])
  }

  /** `pathlib.Path('/'.join(ws)).parts == ws` for plain words. */
  lemma PathPartsOfWords(ws: seq<string>)
    requires |ws| >= 1 && Words(ws)
    ensures PathParts(Join(ws, "/")) == ws
  {
    SplitJoin(ws, '/');
    SegmentsOfWords(ws);
    var s := Join(ws, "/");
    assert ws[0] <= s by {
      if |ws| > 1 { assert s == ws[0] + "/" + Join(ws[1..], "/"); }
    }
    assert s[0] == ws[0][0];
    assert !("/" <= s);
  }

  lemma {:induction false} SegmentsOfWords(ws: seq<string>)
    requires forall i :: 0 <= i < |ws| ==> ws[i] != "" && ws[i] != "."
    ensures Segments(ws) == ws
  {
    if |ws| > 0 {
      SegmentsOfWords(ws[1..]);
      assert ws == [ws[0]] + ws[1..];
    }
  }

  /** A single word (non-empty, not `.`, no slash) is a path of one part. */
  lemma OneWordPath(w: string)
    requires Word(w)
    ensures PathParts(w) == [w]
  {
    PathPartsOfWords([w]);
  }

  /** Joining slash-free words with a slash-free separator gives a
      slash-free string. */
  lemma {:induction false} JoinWithoutSlash(ws: seq<string>, sep: string)
    requires '/' !in sep
    requires forall i :: 0 <= i < |ws| ==> '/' !in ws[i]
    ensures '/' !in Join(ws, sep)
  {
    if |ws| > 1 {
      JoinWithoutSlash(ws[1..], sep);
    }
  }

  /** The parts of a path that does not start with a slash are its
      non-empty, non-`.` slash-free pieces. */
  lemma RelativeParts(s: string)
    requires !("/" <= s)
    ensures Anchor(s) == []
    ensures forall i :: 0 <= i < |PathParts(s)| ==>
      PathParts(s)[i] != "" && PathParts(s)[i] != "." && '/' !in PathParts(s)[i]
  {
  }

  /** Python's `<` on `str`: lexicographic by code point, where a proper
      prefix comes first. */
  predicate Less(a: string, b: string)
  {
    if |a| == 0 then |b| > 0
    else if |b| == 0 then false
    else a[0] < b[0] || (a[0] == b[0] && Less(a[1..], b[1..]))
  }

  lemma {:induction false} LessIrreflexive(a: string)
    ensures !Less(a, a)
  {
    if |a| > 0 {
      LessIrreflexive(a[1..]);
    }
  }

  lemma {:induction false} LessTransitive(a: string, b: string, c: string)
    requires Less(a, b) && Less(b, c)
    ensures Less(a, c)
  {
    if |a| > 0 && |b| > 0 && |c| > 0 && a[0] == b[0] == c[0] {
      LessTransitive(a[1..], b[1..], c[1..]);
    }
  }

  /** Any two different strings are ordered one way or the other. */
  lemma {:induction false} LessTotal(a: string, b: string)
    requires a != b
    ensures Less(a, b) || Less(b, a)
  {
    if |a| > 0 && |b| > 0 && a[0] == b[0] {
      assert a == [a[0]] + a[1..] && b == [b[0]] + b[1..];
      LessTotal(a[1..], b[1..]);
    }
  }

  /** `s` is in strictly increasing order, so it has no repeated element. */
  predicate StrictlySorted(s: seq<string>)
  {
    forall i, j :: 0 <= i < j < |s| ==> Less(s[i], s[j])
  }

  /** Inserts `x` into a strictly sorted sequence, unless it is there already. */
  function Insert(x: string, s: seq<string>): (r: seq<string>)
    requires StrictlySorted(s)
    ensures StrictlySorted(r)
    ensures forall y :: y in r <==> y == x || y in s
  {
    if |s| == 0 then [x]
    else if x == s[0] then s
    else if Less(x, s[0]) then
      assert forall j :: 0 < j < |s| ==> Less(x, s[j]) by {
        forall j | 0 < j < |s| { LessTransitive(x, s[0], s[j]); }
      }
      [x] + s
    else
      LessTotal(x, s[0]);
      var t := Insert(x, s[1..]);
      assert forall y :: y in t ==> Less(s[0], y);
      [s[0]] + t
  }

  /** Python `sorted(set(xs))`: the distinct elements of `xs` in increasing
      order. */
  function SortedSet(xs: seq<string>): (r: seq<string>)
    ensures StrictlySorted(r)
    ensures forall y :: y in r <==> y in xs
  {
    if |xs| == 0 then [] else Insert(xs[0], SortedSet(xs[1..]))
  }

  /** A strictly sorted sequence has as many elements as its set. */
  lemma {:induction false} StrictlySortedCard(r: seq<string>)
    requires StrictlySorted(r)
    ensures |set k | k in r| == |r|
  {
    if |r| > 0 {
      assert StrictlySorted(r[1..]) by {
        forall i, j | 0 <= i < j < |r[1..]| ensures Less(r[1..][i], r[1..][j]) {
          assert r[1..][i] == r[i + 1] && r[1..][j] == r[j + 1];
        }
      }
      StrictlySortedCard(r[1..]);
      assert r[0] !in r[1..] by {
        forall j | 0 <= j < |r[1..]| ensures r[1..][j] != r[0] {
          assert Less(r[0], r[j + 1]);
          LessIrreflexive(r[0]);
        }
      }
      assert (set k | k in r) == {r[0]} + (set k | k in r[1..]) by {
        assert r == [r[0]] + r[1..];
      }
    }
  }

  /** Two strictly sorted sequences with the same elements are equal. */
  lemma {:induction false} SortedUnique(a: seq<string>, b: seq<string>)
    requires StrictlySorted(a) && StrictlySorted(b)
    requires forall x :: x in a <==> x in b
    ensures a == b
  {
    StrictlySortedCard(a);
    StrictlySortedCard(b);
    assert (set x | x in a) == (set x | x in b);
    if |a| > 0 {
      // The first element of each is the least of the common elements.
      if a[0] != b[0] {
        assert a[0] in a && b[0] in b;
        var i :| 0 <= i < |b| && b[i] == a[0];
        var j :| 0 <= j < |a| && a[j] == b[0];
        assert i > 0 && j > 0;
        assert Less(b[0], a[0]) && Less(a[0], b[0]);
        LessTransitive(a[0], b[0], a[0]);
        LessIrreflexive(a[0]);
      }
      assert StrictlySorted(a[1..]) by {
        forall i, j | 0 <= i < j < |a[1..]| ensures Less(a[1..][i], a[1..][j]) {
          assert a[1..][i] == a[i + 1] && a[1..][j] == a[j + 1];
        }
      }
      assert StrictlySorted(b[1..]) by {
        forall i, j | 0 <= i < j < |b[1..]| ensures Less(b[1..][i], b[1..][j]) {
          assert b[1..][i] == b[i + 1] && b[1..][j] == b[j + 1];
        }
      }
      assert a[0] == b[0];
      assert forall x :: x in a[1..] <==> x in b[1..] by {
        forall x ensures x in a[1..] <==> x in b[1..] {
          NotFirst(a, x);
          NotFirst(b, x);
          assert a == [a[0]] + a[1..] && b == [b[0]] + b[1..];
          assert x in a <==> x == a[0] || x in a[1..];
          assert x in b <==> x == b[0] || x in b[1..];
        }
      }
      SortedUnique(a[1..], b[1..]);
      assert a == [a[0]] + a[1..] && b == [b[0]] + b[1..];
    }
  }

  /** In a strictly sorted sequence, the first element occurs only first. */
  lemma NotFirst(a: seq<string>, x: string)
    requires StrictlySorted(a) && |a| > 0
    ensures x in a[1..] ==> x != a[0]
  {
    if x in a[1..] {
      var j :| 0 <= j < |a[1..]| && a[1..][j] == x;
      assert Less(a[0], a[j + 1]);
      LessIrreflexive(a[0]);
    }
  }

  /** `sub` occurs in `s` at position `i`. */
  predicate OccursAt(s: string, sub: string, i: int)
  {
    0 <= i <= |s| - |sub| && s[i..i + |sub|] == sub
  }

  /** `Contains(s, sub)` is Python's `sub in s` on strings: `sub` occurs in
      `s` at some position. */
  lemma {:induction false} ContainsAt(s: string, sub: string)
    ensures Contains(s, sub) <==> exists i :: OccursAt(s, sub, i)
  {
    if sub <= s {
      assert OccursAt(s, sub, 0);
    } else if |s| > 0 {
      ContainsAt(s[1..], sub);
      if exists i :: OccursAt(s, sub, i) {
        var i :| OccursAt(s, sub, i);
        assert i > 0;
        assert OccursAt(s[1..], sub, i - 1) by {
          assert s[1..][i - 1..i - 1 + |sub|] == s[i..i + |sub|];
        }
      }
      if Contains(s[1..], sub) {
        var i :| OccursAt(s[1..], sub, i);
        assert OccursAt(s, sub, i + 1) by {
          assert s[1..][i..i + |sub|] == s[i + 1..i + 1 + |sub|];
        }
      }
    }
  }

  /** A string containing `sub` contains its first character. */
  lemma ContainsFirstChar(s: string, sub: string)
    requires |sub| > 0
    ensures Contains(s, sub) ==> sub[0] in s
  {
    ContainsAt(s, sub);
    if Contains(s, sub) {
      var i :| OccursAt(s, sub, i);
      assert s[i] == s[i..i + |sub|][0];
    }
  }
}
