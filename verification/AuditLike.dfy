/** Searching the audit log with LIKE (backend/controllers/audit.go). */
module AuditLike {
  import opened Strings

  /** strings.ReplaceAll for a pattern of one character. */
  function ReplaceAll(s: string, c: char, with: string): string {
    if s == "" then "" else (if s[0] == c then with else [s[0]]) + ReplaceAll(s[1..], c, with)
  }

  /** escapeAuditLike: three replacements, one after the other. */
  function Escape(s: string): string {
    ReplaceAll(ReplaceAll(ReplaceAll(s, '\\', "\\\\"), '%', "\\%"), '_', "\\_")
  }

  predicate Meta(c: char) {
    c == '\\' || c == '%' || c == '_'
  }

  /** Every special character once, with one backslash before it. */
  function Escaped(s: string): string {
    if s == "" then "" else (if Meta(s[0]) then ['\\', s[0]] else [s[0]]) + Escaped(s[1..])
  }

  lemma {:induction false} ReplaceAppend(a: string, b: string, c: char, with: string)
    ensures ReplaceAll(a + b, c, with) == ReplaceAll(a, c, with) + ReplaceAll(b, c, with)
  {
    if a == "" {
      assert a + b == b;
    } else {
      assert (a + b)[1..] == a[1..] + b;
      ReplaceAppend(a[1..], b, c, with);
    }
  }

  lemma ReplaceOne(x: char, c: char, with: string)
    ensures ReplaceAll([x], c, with) == if x == c then with else [x]
  {}

  lemma ReplaceTwo(x: char, y: char, c: char, with: string)
    ensures ReplaceAll([x, y], c, with) == (if x == c then with else [x]) + (if y == c then with else [y])
  {
    assert [x, y] == [x] + [y];
    ReplaceAppend([x], [y], c, with);
    ReplaceOne(x, c, with);
    ReplaceOne(y, c, with);
  }

  /** The order of the replacements matters: the backslash first, so that none is escaped twice. */
  lemma {:induction false} EscapeIsOnePass(s: string)
    ensures Escape(s) == Escaped(s)
  {
    if s != "" {
      EscapeIsOnePass(s[1..]);
      var x := s[0];
      var a := ReplaceAll(s[1..], '\\', "\\\\");
      var h := if x == '\\' then "\\\\" else [x];
      var b := ReplaceAll(a, '%', "\\%");
      var h' := if x == '%' then "\\%" else h;
      assert ReplaceAll(s, '\\', "\\\\") == h + a;
      ReplaceAppend(h, a, '%', "\\%");
      ReplaceOne(x, '%', "\\%");
      ReplaceTwo('\\', '\\', '%', "\\%");
      assert ReplaceAll(h, '%', "\\%") == h';
      ReplaceAppend(h', b, '_', "\\_");
      ReplaceOne(x, '_', "\\_");
      ReplaceTwo('\\', '\\', '_', "\\_");
      ReplaceTwo('\\', '%', '_', "\\_");
    }
  }

  /** text LIKE pattern ESCAPE a backslash.  A pattern that ends in its escape character is an error in
      PostgreSQL; it matches nothing here, and SearchFindsExactly shows that the search never makes one. */
  predicate Like(text: string, pattern: string)
    decreases |pattern|, |text|
  {
    if pattern == "" then text == ""
    else if pattern[0] == '%' then Like(text, pattern[1..]) || (text != "" && Like(text[1..], pattern))
    else if pattern[0] == '_' then text != "" && Like(text[1..], pattern[1..])
    else if pattern[0] == '\\' then |pattern| > 1 && text != "" && text[0] == pattern[1]
        && Like(text[1..], pattern[2..])
    else text != "" && text[0] == pattern[0] && Like(text[1..], pattern[1..])
  }

  /** No escape character is left without a character to escape. */
  predicate WellFormed(pattern: string) {
    pattern == "" || (if pattern[0] == '\\' then |pattern| > 1
        && WellFormed(pattern[2..]) else WellFormed(pattern[1..]))
  }

  lemma {:induction false} PercentMatchesAll(text: string)
    ensures Like(text, "%")
  {
    assert "%"[1..] == "";
    if text != "" { PercentMatchesAll(text[1..]); }
  }

  lemma EscapedHead(s: string, tail: string)
    requires s != ""
    ensures Escaped(s) + tail == (if Meta(s[0]) then ['\\', s[0]] else [s[0]]) + (Escaped(s[1..]) + tail)
  {}

  /** An escaped text matches itself and nothing else. */
  lemma {:induction false} EscapedMatchesPrefix(text: string, s: string)
    ensures Like(text, Escaped(s) + "%") <==> s <= text
    ensures WellFormed(Escaped(s) + "%")
  {
    if s == "" {
      assert Escaped(s) + "%" == "%";
      PercentMatchesAll(text);
      assert "%"[1..] == "";
    } else {
      var rest := Escaped(s[1..]) + "%";
      var pattern := Escaped(s) + "%";
      EscapedHead(s, "%");
      assert pattern[if Meta(s[0]) then 2 else 1..] == rest;
      EscapedMatchesPrefix(if text == "" then "" else text[1..], s[1..]);
      if text != "" {
        PrefixStep(text, s);
      }
    }
  }

  lemma PrefixStep(text: string, s: string)
    requires text != "" && s != ""
    ensures s <= text <==> text[0] == s[0] && s[1..] <= text[1..]
  {
    if text[0] == s[0] && s[1..] <= text[1..] {
      assert s == [s[0]] + s[1..] && text == [text[0]] + text[1..];
      assert forall i :: 1 <= i < |s| ==> s[i] == s[1..][i - 1] && text[i] == text[1..][i - 1];
    }
  }

  lemma {:induction false} PercentSkips(text: string, pattern: string)
    ensures Like(text, "%" + pattern) <==> exists k :: 0 <= k <= |text| && Like(text[k..], pattern)
  {
    assert ("%" + pattern)[1..] == pattern;
    assert text[0..] == text;
    if text != "" {
      PercentSkips(text[1..], pattern);
      forall k | 1 <= k <= |text| ensures text[k..] == text[1..][k - 1..] {}
    }
    if k :| 0 <= k <= |text| && Like(text[k..], pattern) {
      if k > 0 {
        assert text[k..] == text[1..][k - 1..];
      }
    }
    if text != "" && Like(text[1..], "%" + pattern) {
      var k :| 0 <= k <= |text[1..]| && Like(text[1..][k..], pattern);
      assert text[k + 1..] == text[1..][k..];
    }
  }

  /** The search finds exactly the texts that contain what was typed, whatever it contains. */
  lemma SearchFindsExactly(text: string, s: string)
    ensures Like(text, "%" + Escape(s) + "%") <==> Contains(text, s)
    ensures WellFormed("%" + Escape(s) + "%")
  {
    EscapeIsOnePass(s);
    var pattern := Escaped(s) + "%";
    assert "%" + Escape(s) + "%" == "%" + pattern;
    assert ("%" + pattern)[1..] == pattern;
    EscapedMatchesPrefix(text, s);
    PercentSkips(text, pattern);
    forall k | 0 <= k <= |text| ensures Like(text[k..], pattern) <==> Occurs(text, s, k) {
      EscapedMatchesPrefix(text[k..], s);
      if Occurs(text, s, k) {
        assert text[k..][..|s|] == s;
      }
      if s <= text[k..] {
        assert text[k..k + |s|] == text[k..][..|s|] == s;
      }
    }
  }
}
