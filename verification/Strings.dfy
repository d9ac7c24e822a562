/** Strings as sequences of code points: byte-wise order of UTF-8 is code-point order, so Less is the
    order of Go's sort.Strings.  Sorting and joining sets of strings. */
module Strings {
  predicate Less(a: string, b: string) {
    b != "" && (a == "" || a[0] < b[0] || (a[0] == b[0] && Less(a[1..], b[1..])))
  }

  lemma {:induction false} LessIrreflexive(a: string)
    ensures !Less(a, a)
  {
    if a != "" { LessIrreflexive(a[1..]); }
  }

  lemma {:induction false} LessTransitive(a: string, b: string, c: string)
    requires Less(a, b) && Less(b, c)
    ensures Less(a, c)
  {
    if a != "" && a[0] == b[0] == c[0] { LessTransitive(a[1..], b[1..], c[1..]); }
  }

  lemma {:induction false} LessTotal(a: string, b: string)
    ensures a == b || Less(a, b) || Less(b, a)
  {
    if a != "" && b != "" && a[0] == b[0] {
      LessTotal(a[1..], b[1..]);
      assert a == [a[0]] + a[1..] && b == [b[0]] + b[1..];
    }
  }

  ghost predicate Increasing(r: seq<string>) {
    forall i, j :: 0 <= i < j < |r| ==> Less(r[i], r[j])
  }

  function Elements(r: seq<string>): set<string> {
    set x | x in r
  }

  lemma EmptyElements(r: seq<string>)
    ensures Elements(r) == {} <==> r == []
  {
    if r != [] {
      assert r[0] in Elements(r);
    }
  }

  /** A set has only one strictly increasing listing. */
  lemma {:induction false} IncreasingUnique(a: seq<string>, b: seq<string>)
    requires Increasing(a) && Increasing(b) && Elements(a) == Elements(b)
    ensures a == b
  {
    if a == [] || b == [] {
      EmptyElements(a);
      EmptyElements(b);
    } else {
      FirstIsLeast(a, b);
      FirstIsLeast(b, a);
      if a[0] != b[0] {
        LessTransitive(a[0], b[0], a[0]);
        LessIrreflexive(a[0]);
      }
      RestOf(a);
      RestOf(b);
      IncreasingUnique(a[1..], b[1..]);
      assert a == [a[0]] + a[1..] && b == [b[0]] + b[1..];
    }
  }

  lemma FirstIsLeast(a: seq<string>, b: seq<string>)
    requires a != [] && b != [] && Increasing(a) && Elements(a) == Elements(b)
    ensures a[0] == b[0] || Less(a[0], b[0])
  {
    assert b[0] in Elements(b);
    var i :| 0 <= i < |a| && a[i] == b[0];
  }

  lemma RestOf(a: seq<string>)
    requires a != [] && Increasing(a)
    ensures Elements(a[1..]) == Elements(a) - {a[0]} && Increasing(a[1..])
  {
    forall x ensures x in a[1..] <==> x in a && x != a[0] {
      if x in a[1..] {
        var i :| 0 <= i < |a[1..]| && a[1..][i] == x;
        assert Less(a[0], a[i + 1]);
        LessIrreflexive(x);
      }
    }
  }

  /** Where a new element of an increasing list belongs. */
  function Insert(r: seq<string>, x: string): seq<string> {
    if r == [] then [x]
    else if x == r[0] then r
    else if Less(x, r[0]) then [x] + r
    else [r[0]] + Insert(r[1..], x)
  }

  lemma Prepended(x: string, r: seq<string>)
    requires Increasing(r) && (r != [] ==> Less(x, r[0]))
    ensures Increasing([x] + r) && Elements([x] + r) == {x} + Elements(r)
  {
    forall k | 0 <= k < |r| ensures Less(x, r[k]) {
      if k > 0 { LessTransitive(x, r[0], r[k]); }
    }
  }

  lemma {:induction false} InsertSorts(r: seq<string>, x: string)
    requires Increasing(r)
    ensures Increasing(Insert(r, x)) && Elements(Insert(r, x)) == Elements(r) + {x}
  {
    if r == [] || Less(x, r[0]) {
      Prepended(x, r);
      LessIrreflexive(x);
    } else if x != r[0] {
      LessTotal(x, r[0]);
      InsertSorts(r[1..], x);
      Prepended(r[0], Insert(r[1..], x));
      assert r == [r[0]] + r[1..];
    } else {
      assert x in r;
    }
  }

  /** sort.Strings over the keys of a set, whatever order they are visited in. */
  method SortSet(items: set<string>) returns (r: seq<string>)
    ensures Increasing(r) && Elements(r) == items
  {
    r := [];
    var rest := items;
    while rest != {}
      invariant rest <= items && Increasing(r) && Elements(r) == items - rest
      decreases |rest|
    {
      var x :| x in rest;
      rest := rest - {x};
      InsertSorts(r, x);
      r := Insert(r, x);
    }
  }

  /** The increasing listing of a set. */
  ghost function Sorted(items: set<string>): (r: seq<string>)
    ensures Increasing(r) && Elements(r) == items
  {
    SortedExists(items);
    var r :| Increasing(r) && Elements(r) == items;
    r
  }

  lemma {:induction false} SortedExists(items: set<string>)
    ensures exists r :: Increasing(r) && Elements(r) == items
    decreases |items|
  {
    if items == {} {
      assert Increasing([]) && Elements([]) == items;
    } else {
      var x :| x in items;
      SortedExists(items - {x});
      var r :| Increasing(r) && Elements(r) == items - {x};
      InsertSorts(r, x);
    }
  }

  /** strings.Join(words, " "). */
  function Join(words: seq<string>): string {
    if words == [] then "" else if |words| == 1 then words[0] else words[0] + " " + Join(words[1..])
  }

  predicate Occurs(s: string, part: string, i: int) {
    0 <= i <= |s| - |part| && s[i..i + |part|] == part
  }

  /** strings.Contains. */
  ghost predicate Contains(s: string, part: string) {
    exists i :: Occurs(s, part, i)
  }
}
