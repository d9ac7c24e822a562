/** The scope algebra (backend/utils/security.go): what the strings mean is the set of their words. */
module Scopes {
  import opened Strings

  /** unicode.IsSpace. */
  predicate IsSpace(c: char) {
    || c in ['\t', '\n', '\U{0B}', '\U{0C}', '\r', ' ', '\U{85}', '\U{A0}', '\U{1680}', '\U{2028}', '\U{2029}',
        '\U{202F}',
        '\U{205F}', '\U{3000}']
    || '\U{2000}' <= c <= '\U{200A}'
  }

  predicate Word(w: string) {
    w != "" && forall c :: c in w ==> !IsSpace(c)
  }

  /** How many characters come before the first space. */
  function WordLength(s: string): (n: nat)
    ensures n <= |s| && (forall i :: 0 <= i < n ==> !IsSpace(s[i])) && (n < |s| ==> IsSpace(s[n]))
  {
    if s == "" || IsSpace(s[0]) then 0 else 1 + WordLength(s[1..])
  }

  /** strings.Fields. */
  function Fields(s: string): seq<string>
    decreases |s|
  {
    if s == "" then []
    else if IsSpace(s[0]) then Fields(s[1..])
    else [s[..WordLength(s)]] + Fields(s[WordLength(s)..])
  }

  function Words(s: string): set<string> {
    Elements(Fields(s))
  }

  lemma {:induction false} FieldsAreWords(s: string)
    ensures forall w :: w in Fields(s) ==> Word(w)
    decreases |s|
  {
    if s == "" {
    } else if IsSpace(s[0]) {
      FieldsAreWords(s[1..]);
    } else {
      FieldsAreWords(s[WordLength(s)..]);
      assert Word(s[..WordLength(s)]);
    }
  }

  lemma {:induction false} WordLengthAppend(w: string, rest: string)
    requires forall c :: c in w ==> !IsSpace(c)
    requires rest == "" || IsSpace(rest[0])
    ensures WordLength(w + rest) == |w|
  {
    if w == "" {
      assert w + rest == rest;
    } else {
      assert (w + rest)[1..] == w[1..] + rest;
      WordLengthAppend(w[1..], rest);
    }
  }

  /** A leading word is a field of its own. */
  lemma FieldsOfWord(w: string, rest: string)
    requires Word(w) && (rest == "" || IsSpace(rest[0]))
    ensures Fields(w + rest) == [w] + Fields(rest)
  {
    WordLengthAppend(w, rest);
    assert (w + rest)[0] == w[0] && w[0] in w;
    assert (w + rest)[..|w|] == w && (w + rest)[|w|..] == rest;
  }

  lemma FieldsOfSpace(c: char, rest: string)
    requires IsSpace(c)
    ensures Fields([c] + rest) == Fields(rest)
  {}

  lemma Regroup(a: string, b: string, c: string)
    ensures a + b + " " + c == a + (b + " " + c)
  {}

  /** Fields of a text, a space and another text. */
  lemma {:induction false} FieldsOfPair(a: string, b: string)
    ensures Fields(a + " " + b) == Fields(a) + Fields(b)
    decreases |a|
  {
    if a == "" {
      FieldsOfSpace(' ', b);
      assert a + " " + b == [' '] + b;
    } else {
      var n := if IsSpace(a[0]) then 1 else WordLength(a);
      var head, rest := a[..n], a[n..];
      assert a == head + rest;
      Regroup(head, rest, b);
      FieldsOfPair(rest, b);
      if IsSpace(a[0]) {
        FieldsOfSpace(a[0], rest);
        FieldsOfSpace(a[0], rest + " " + b);
      } else {
        FieldsOfWord(head, rest);
        FieldsOfWord(head, rest + " " + b);
      }
    }
  }

  lemma {:induction false} FieldsOfJoin(words: seq<string>)
    requires forall w :: w in words ==> Word(w)
    ensures Fields(Join(words)) == words
  {
    if words == [] {
    } else if |words| == 1 {
      assert words[0] + "" == words[0];
      FieldsOfWord(words[0], "");
    } else {
      FieldsOfWord(words[0], " " + Join(words[1..]));
      assert words[0] + (" " + Join(words[1..])) == Join(words);
      FieldsOfJoin(words[1..]);
      assert (" " + Join(words[1..]))[1..] == Join(words[1..]);
    }
  }

  // ---------------------------------------------------------------- NormalizeScope

  ghost function Normalize(s: string): string {
    Join(Sorted(Words(s)))
  }

  method NormalizeScope(scope: string) returns (r: string)
    ensures r == Normalize(scope)
  {
    var seen: set<string> := {};
    var fields := Fields(scope);
    var n := 0;
    while n < |fields|
      invariant 0 <= n <= |fields| && seen == Elements(fields[..n])
    {
      seen := seen + {fields[n]};
      assert fields[..n + 1] == fields[..n] + [fields[n]];
      n := n + 1;
    }
    assert fields[..n] == fields;
    var items := SortSet(seen);
    IncreasingUnique(items, Sorted(Words(scope)));
    return Join(items);
  }

  lemma NormalizeKeepsWords(s: string)
    ensures Words(Normalize(s)) == Words(s) && Fields(Normalize(s)) == Sorted(Words(s))
  {
    var listing := Sorted(Words(s));
    FieldsAreWords(s);
    forall w | w in listing ensures Word(w) {
      assert w in Elements(listing);
    }
    FieldsOfJoin(listing);
  }

  lemma NormalizeIdempotent(s: string)
    ensures Normalize(Normalize(s)) == Normalize(s)
  {
    NormalizeKeepsWords(s);
  }

  /** Two scopes have the same normal form exactly when they have the same words. */
  lemma NormalizeCanonical(a: string, b: string)
    ensures Normalize(a) == Normalize(b) <==> Words(a) == Words(b)
  {
    NormalizeKeepsWords(a);
    NormalizeKeepsWords(b);
  }

  /** The scope persistOAuthConsent stores on top of an earlier one grants exactly both. */
  lemma MergedScopeIsUnion(old_: string, requested: string)
    ensures Words(Normalize(old_ + " " + requested)) == Words(old_) + Words(requested)
  {
    NormalizeKeepsWords(old_ + " " + requested);
    FieldsOfPair(old_, requested);
  }

  // ---------------------------------------------------------------- ScopeAllowed

  method ScopeAllowed(requested: string, allowed: string) returns (ok: bool)
    ensures ok <==> requested != "" && Words(requested) <= Words(allowed)
  {
    var allowedSet: set<string> := {};
    var fields := Fields(allowed);
    var n := 0;
    while n < |fields|
      invariant 0 <= n <= |fields| && allowedSet == Elements(fields[..n])
    {
      allowedSet := allowedSet + {fields[n]};
      assert fields[..n + 1] == fields[..n] + [fields[n]];
      n := n + 1;
    }
    assert fields[..n] == fields;
    fields := Fields(requested);
    n := 0;
    while n < |fields|
      invariant 0 <= n <= |fields| && Elements(fields[..n]) <= allowedSet
    {
      if fields[n] !in allowedSet {
        assert fields[n] in Words(requested);
        return false;
      }
      assert fields[..n + 1] == fields[..n] + [fields[n]];
      n := n + 1;
    }
    assert fields[..n] == fields;
    return requested != "";
  }

  /** A normalized request is empty exactly when it names nothing; a raw one can be blank and pass. */
  lemma BlankRequests(s: string)
    ensures Normalize(s) == "" <==> Words(s) == {}
    ensures Words(" ") == {} && " " != ""
  {
    NormalizeKeepsWords(s);
    assert Fields("") == [];
    if Normalize(s) == "" {
      assert Words(s) == Elements([]);
    } else {
      assert Sorted(Words(s)) != [];
      assert Sorted(Words(s))[0] in Elements(Sorted(Words(s)));
    }
    assert " "[1..] == "";
  }

  // ---------------------------------------------------------------- GetMe's test

  function Padded(words: seq<string>): string {
    if words == [] then " " else " " + words[0] + Padded(words[1..])
  }

  lemma {:induction false} PaddedJoin(words: seq<string>)
    requires words != []
    ensures " " + Join(words) + " " == Padded(words)
  {
    if |words| > 1 {
      PaddedJoin(words[1..]);
      assert " " + Join(words) + " " == " " + words[0] + (" " + Join(words[1..]) + " ");
    } else {
      assert words[1..] == [];
    }
  }

  predicate At(s: string, i: int, w: string) {
    0 <= i <= |s| - |w| - 2 && s[i] == ' ' && s[i + 1..i + 1 + |w|] == w && s[i + 1 + |w|] == ' '
  }

  lemma {:induction false} PaddedAt(words: seq<string>, w: string, i: int)
    requires (forall x :: x in words ==> Word(x)) && Word(w) && At(Padded(words), i, w)
    ensures w in words
    decreases |words|
  {
    if words != [] {
      var h, s, rest := words[0], Padded(words), Padded(words[1..]);
      assert s == " " + h + rest && rest[0] == ' ';
      if i == 0 {
        if |h| != |w| {
          WrongLength(h, rest, w);
        } else {
          assert s[1..1 + |h|] == h;
        }
      } else if i <= |h| {
        InsideWord(h, rest, w, i);
      } else {
        assert At(rest, i - |h| - 1, w) by {
          assert rest == s[|h| + 1..];
        }
        PaddedAt(words[1..], w, i - |h| - 1);
      }
    }
  }

  lemma WrongLength(h: string, rest: string, w: string)
    requires Word(h) && Word(w) && rest != "" && rest[0] == ' ' && |h| != |w|
    ensures !At(" " + h + rest, 0, w)
  {
    var s := " " + h + rest;
    assert s[1 + |h|] == ' ';
    if |w| < |h| {
      assert s[1 + |w|] == h[|w|] && h[|w|] in h;
    } else {
      assert w[|h|] in w;
      assert 1 + |w| <= |s| ==> s[1..1 + |w|][|h|] == s[1 + |h|];
    }
  }

  lemma InsideWord(h: string, rest: string, w: string, i: int)
    requires Word(h) && 0 < i <= |h|
    ensures !At(" " + h + rest, i, w)
  {
    assert (" " + h + rest)[i] == h[i - 1] && h[i - 1] in h;
  }

  lemma ShiftAt(a: string, s: string, i: int, w: string)
    requires At(s, i, w)
    ensures At(a + s, |a| + i, w)
  {}

  lemma {:induction false} AtPadded(words: seq<string>, w: string)
    requires w in words
    ensures exists i :: At(Padded(words), i, w)
  {
    var s, rest := Padded(words), Padded(words[1..]);
    if words[0] == w {
      assert rest != "" && rest[0] == ' ';
      assert At(s, 0, w);
    } else {
      AtPadded(words[1..], w);
      var i :| At(rest, i, w);
      assert s == (" " + words[0]) + rest;
      ShiftAt(" " + words[0], rest, i, w);
    }
  }

  lemma OccursIsAt(s: string, w: string, i: int)
    ensures Occurs(s, " " + w + " ", i) <==> At(s, i, w)
  {
    var part := " " + w + " ";
    assert part[0] == ' ' && part[1..1 + |w|] == w && part[1 + |w|] == ' ';
    if Occurs(s, part, i) {
      assert s[i] == part[0] && s[i + 1 + |w|] == part[1 + |w|];
      assert s[i + 1..i + 1 + |w|] == s[i..i + |part|][1..1 + |w|];
    }
    if At(s, i, w) {
      assert s[i..i + |part|] == [s[i]] + s[i + 1..i + 1 + |w|] + [s[i + 1 + |w|]];
    }
  }

  lemma ContainsIsAt(s: string, w: string)
    ensures Contains(s, " " + w + " ") <==> exists i :: At(s, i, w)
  {
    forall i ensures Occurs(s, " " + w + " ", i) <==> At(s, i, w) {
      OccursIsAt(s, w, i);
    }
  }

  /** strings.Contains(" "+scope+" ", " word ") is membership, for every normalized scope. */
  lemma GetMeTestIsMembership(s: string, w: string)
    requires Word(w)
    ensures Contains(" " + Normalize(s) + " ", " " + w + " ") <==> w in Words(s)
  {
    var listing := Sorted(Words(s));
    ContainsIsAt(" " + Normalize(s) + " ", w);
    FieldsAreWords(s);
    forall x | x in listing ensures Word(x) {
      assert x in Elements(listing);
    }
    if listing == [] {
      assert w !in Elements(listing);
    } else {
      PaddedJoin(listing);
      if w in Words(s) {
        assert w in Elements(listing);
        AtPadded(listing, w);
      }
      if i :| At(Padded(listing), i, w) {
        PaddedAt(listing, w, i);
      }
    }
  }
}
