/** The consents given to grants older than the consent table, when the program starts
    (backend/database/database.go). */
module ConsentBackfill {
  import opened Options
  import opened Instants
  import opened Strings
  import opened Scopes

  /** A UUID in text form; what matters is that it holds no colon. */
  type Uuid = s: string | ':' !in s witness ""

  datatype Pair = Pair(client: Uuid, user: Uuid)

  datatype Token = Token(pair: Pair, scope: string, created: Time, expires: Time, refreshExpires: Time, revoked: bool)

  datatype Consent = Consent(pair: Pair, scope: string, grantedAt: Time, revoked: bool)

  datatype Grant = Grant(pair: Pair, scopes: set<string>, grantedAt: Time)

  function Key(p: Pair): string {
    p.client + ":" + p.user
  }

  lemma ShorterKey(p: Pair, q: Pair)
    requires |p.client| < |q.client|
    ensures Key(p) != Key(q)
  {
    var n := |p.client|;
    assert Key(p)[n] == ':' && Key(q)[n] == q.client[n] && q.client[n] in q.client;
  }

  lemma KeyInjective(p: Pair, q: Pair)
    ensures Key(p) == Key(q) <==> p == q
  {
    if |p.client| < |q.client| {
      ShorterKey(p, q);
    } else if |q.client| < |p.client| {
      ShorterKey(q, p);
    } else {
      var n := |p.client|;
      assert p.client == Key(p)[..n] && q.client == Key(q)[..n];
      assert p.user == Key(p)[n + 1..] && q.user == Key(q)[n + 1..];
    }
  }

  // ---------------------------------------------------------------- what the candidates are

  /** Every word of every scope of a pair's tokens. */
  ghost function ScopesOf(tokens: seq<Token>, p: Pair): set<string> {
    set t, w | t in tokens && t.pair == p && w in Words(t.scope) :: w
  }

  ghost predicate Earliest(tokens: seq<Token>, p: Pair, at: Time) {
    && (exists t :: t in tokens && t.pair == p && t.created == at)
    && (forall t :: t in tokens && t.pair == p ==> at <= t.created)
  }

  /** The consent of a pair: all that its tokens may do, given when the first of them was. */
  ghost predicate Summary(tokens: seq<Token>, c: Consent) {
    c.scope == Join(Sorted(ScopesOf(tokens, c.pair))) && Earliest(tokens, c.pair, c.grantedAt) && !c.revoked
  }

  predicate Before(p: Pair, q: Pair) {
    Less(p.client, q.client) || (p.client == q.client && Less(p.user, q.user))
  }

  ghost predicate Ordered(r: seq<Consent>) {
    forall i, j :: 0 <= i < j < |r| ==> Before(r[i].pair, r[j].pair)
  }

  /** One candidate for each pair that has a token, in the order of clients and users. */
  ghost predicate Candidates(tokens: seq<Token>, r: seq<Consent>) {
    && Ordered(r)
    && (forall c :: c in r ==> Summary(tokens, c))
    && (forall t :: t in tokens ==> Named(r, t.pair))
  }

  ghost predicate Named(r: seq<Consent>, p: Pair) {
    exists c :: c in r && c.pair == p
  }

  lemma BeforeIrreflexive(p: Pair)
    ensures !Before(p, p)
  {
    LessIrreflexive(p.client);
    LessIrreflexive(p.user);
  }

  lemma BeforeTransitive(p: Pair, q: Pair, r: Pair)
    requires Before(p, q) && Before(q, r)
    ensures Before(p, r)
  {
    if Less(p.client, q.client) && Less(q.client, r.client) {
      LessTransitive(p.client, q.client, r.client);
    } else if p.client == q.client == r.client {
      LessTransitive(p.user, q.user, r.user);
    }
  }

  lemma BeforeTotal(p: Pair, q: Pair)
    ensures p == q || Before(p, q) || Before(q, p)
  {
    LessTotal(p.client, q.client);
    LessTotal(p.user, q.user);
  }

  lemma {:induction false} OrderedUnique(r: seq<Consent>, s: seq<Consent>)
    requires Ordered(r) && Ordered(s) && forall c :: c in r <==> c in s
    ensures r == s
  {
    if r == [] || s == [] {
      NoMembers(r);
      NoMembers(s);
    } else {
      assert r[0] in r;
      LeastFirst(r, s);
      LeastFirst(s, r);
      if r[0] != s[0] {
        BeforeTransitive(r[0].pair, s[0].pair, r[0].pair);
        BeforeIrreflexive(r[0].pair);
      }
      TailMembers(r);
      TailMembers(s);
      OrderedUnique(r[1..], s[1..]);
      assert r == [r[0]] + r[1..] && s == [s[0]] + s[1..];
    }
  }

  lemma NoMembers(r: seq<Consent>)
    ensures r == [] <==> forall c :: c !in r
  {
    assert r != [] ==> r[0] in r;
  }

  lemma LeastFirst(r: seq<Consent>, s: seq<Consent>)
    requires Ordered(r) && r != [] && s != [] && s[0] in r
    ensures r[0] == s[0] || Before(r[0].pair, s[0].pair)
  {}

  lemma TailMembers(r: seq<Consent>)
    requires Ordered(r) && r != []
    ensures Ordered(r[1..]) && forall c :: c in r[1..] <==> c in r && c != r[0]
  {
    forall c ensures c in r[1..] <==> c in r && c != r[0] {
      if c in r[1..] {
        var i :| 0 <= i < |r[1..]| && r[1..][i] == c;
        assert Before(r[0].pair, r[i + 1].pair);
        BeforeIrreflexive(c.pair);
      }
    }
  }

  ghost predicate SameTokens(a: seq<Token>, b: seq<Token>) {
    forall t :: t in a <==> t in b
  }

  lemma EarliestUnique(a: seq<Token>, b: seq<Token>, p: Pair, at: Time, then_: Time)
    requires SameTokens(a, b) && Earliest(a, p, at) && Earliest(b, p, then_)
    ensures at == then_
  {}

  lemma SummaryUnique(a: seq<Token>, b: seq<Token>, c: Consent, d: Consent)
    requires SameTokens(a, b) && Summary(a, c) && Summary(b, d) && c.pair == d.pair
    ensures c == d
  {
    EarliestUnique(a, b, c.pair, c.grantedAt, d.grantedAt);
    assert ScopesOf(a, c.pair) == ScopesOf(b, c.pair);
  }

  lemma Found(a: seq<Token>, b: seq<Token>, r: seq<Consent>, s: seq<Consent>, c: Consent)
    requires SameTokens(a, b) && Candidates(a, r) && Candidates(b, s) && c in r
    ensures c in s
  {
    assert Earliest(a, c.pair, c.grantedAt);
    var t :| t in a && t.pair == c.pair;
    assert t in b && Named(s, t.pair);
    var d :| d in s && d.pair == c.pair;
    SummaryUnique(a, b, c, d);
  }

  /** The candidates depend on which tokens there are, not on the order the query returns them in. */
  lemma CandidatesUnique(a: seq<Token>, b: seq<Token>, r: seq<Consent>, s: seq<Consent>)
    requires SameTokens(a, b) && Candidates(a, r) && Candidates(b, s)
    ensures r == s
  {
    forall c | c in r ensures c in s { Found(a, b, r, s, c); }
    forall c | c in s ensures c in r { Found(b, a, s, r, c); }
    OrderedUnique(r, s);
  }

  // ---------------------------------------------------------------- the loops

  ghost predicate Folded(tokens: seq<Token>, key: string, g: Grant) {
    key == Key(g.pair) && g.scopes == ScopesOf(tokens, g.pair) && Earliest(tokens, g.pair, g.grantedAt)
  }

  lemma FoldOther(tokens: seq<Token>, t: Token, key: string, g: Grant)
    requires Folded(tokens, key, g) && g.pair != t.pair
    ensures Folded(tokens + [t], key, g)
  {}

  lemma FoldOwn(tokens: seq<Token>, t: Token, before: Option<Grant>)
    requires match before
      case Some(b) => Folded(tokens, Key(t.pair), b)
      case None => !Holds(tokens, t.pair)
    ensures Folded(tokens + [t], Key(t.pair), Taken(before, t))
  {
    assert forall x :: x in tokens + [t] <==> x in tokens || x == t;
    if before.Some? {
      KeyInjective(before.value.pair, t.pair);
    }
    assert ScopesOf(tokens + [t], t.pair) == ScopesOf(tokens, t.pair) + Words(t.scope);
  }

  ghost predicate Holds(tokens: seq<Token>, p: Pair) {
    exists t :: t in tokens && t.pair == p
  }

  /** The map of grants after some tokens: one entry for each of their pairs. */
  ghost predicate Grants(tokens: seq<Token>, grants: map<string, Grant>) {
    && (forall k :: k in grants ==> Folded(tokens, k, grants[k]))
    && (forall p :: Holds(tokens, p) ==> Key(p) in grants)
  }

  function Entry(grants: map<string, Grant>, key: string): Option<Grant> {
    if key in grants then Some(grants[key]) else None
  }

  /** A pair's entry once a token is folded into it. */
  ghost function Taken(before: Option<Grant>, t: Token): Grant {
    var start := if before.Some? then before.value else Grant(t.pair, {}, t.created);
    Grant(start.pair, start.scopes + Words(t.scope), if t.created < start.grantedAt then t.created else start.grantedAt)
  }

  ghost function Fold(tokens: seq<Token>): map<string, Grant> {
    if tokens == [] then map[] else
      var grants, t := Fold(tokens[..|tokens| - 1]), tokens[|tokens| - 1];
      grants[Key(t.pair) := Taken(Entry(grants, Key(t.pair)), t)]
  }

  lemma GrantsGrow(tokens: seq<Token>, t: Token, grants: map<string, Grant>)
    requires Grants(tokens, grants)
    ensures Grants(tokens + [t], grants[Key(t.pair) := Taken(Entry(grants, Key(t.pair)), t)])
  {
    var key := Key(t.pair);
    assert Folded(tokens + [t], key, Taken(Entry(grants, key), t)) by {
      if key in grants {
        KeyInjective(grants[key].pair, t.pair);
      }
      FoldOwn(tokens, t, Entry(grants, key));
    }
    forall k | k in grants && k != key ensures Folded(tokens + [t], k, grants[k]) {
      FoldOther(tokens, t, k, grants[k]);
    }
    assert forall p :: Holds(tokens + [t], p) ==> Holds(tokens, p) || p == t.pair;
  }

  /** Folding the tokens in one by one gives each pair the words of all its tokens and the earliest time. */
  lemma {:induction false} FoldGrants(tokens: seq<Token>)
    ensures Grants(tokens, Fold(tokens))
  {
    if tokens != [] {
      var n := |tokens| - 1;
      FoldGrants(tokens[..n]);
      GrantsGrow(tokens[..n], tokens[n], Fold(tokens[..n]));
      assert tokens == tokens[..n] + [tokens[n]];
    }
  }

  method FoldTokens(tokens: seq<Token>) returns (grants: map<string, Grant>)
    ensures grants == Fold(tokens)
  {
    grants := map[];
    var n := 0;
    while n < |tokens|
      invariant 0 <= n <= |tokens| && grants == Fold(tokens[..n])
    {
      var token := tokens[n];
      var key := Key(token.pair);
      var item := Take(Entry(grants, key), token);
      grants := grants[key := item];
      assert tokens[..n + 1][..n] == tokens[..n];
      n := n + 1;
    }
    assert tokens[..n] == tokens;
  }

  /** One token folded into the entry of its pair. */
  method Take(before: Option<Grant>, token: Token) returns (item: Grant)
    ensures item == Taken(before, token)
  {
    item := if before.Some? then before.value else Grant(token.pair, {}, token.created);
    if token.created < item.grantedAt {
      item := item.(grantedAt := token.created);
    }
    var fields, m := Fields(token.scope), 0;
    ghost var start := item;
    while m < |fields|
      invariant 0 <= m <= |fields| && item == start.(scopes := start.scopes + Elements(fields[..m]))
    {
      item := item.(scopes := item.scopes + {fields[m]});
      assert fields[..m + 1] == fields[..m] + [fields[m]];
      m := m + 1;
    }
    assert fields[..m] == fields;
  }

  function Insert(r: seq<Consent>, c: Consent): seq<Consent> {
    if r == [] || Before(c.pair, r[0].pair) then [c] + r else [r[0]] + Insert(r[1..], c)
  }

  lemma Prepended(c: Consent, r: seq<Consent>)
    requires Ordered(r) && (r != [] ==> Before(c.pair, r[0].pair))
    ensures Ordered([c] + r)
  {
    forall k | 0 <= k < |r| ensures Before(c.pair, r[k].pair) {
      if k > 0 { BeforeTransitive(c.pair, r[0].pair, r[k].pair); }
    }
  }

  lemma {:induction false} InsertOrders(r: seq<Consent>, c: Consent)
    requires Ordered(r) && forall x :: x in r ==> x.pair != c.pair
    ensures Ordered(Insert(r, c)) && forall x :: x in Insert(r, c) <==> x in r || x == c
  {
    if r == [] || Before(c.pair, r[0].pair) {
      Prepended(c, r);
    } else {
      assert r == [r[0]] + r[1..] && r[0] in r;
      BeforeTotal(c.pair, r[0].pair);
      InsertOrders(r[1..], c);
      var rest := Insert(r[1..], c);
      if |r| > 1 {
        assert Before(r[0].pair, r[1].pair);
      }
      Prepended(r[0], rest);
    }
  }

  ghost predicate Distinct(r: seq<Consent>) {
    forall i, j :: 0 <= i < j < |r| ==> r[i].pair != r[j].pair
  }

  /** The sort of the candidates, whatever order the map gave them in. */
  method SortByPair(items: seq<Consent>) returns (r: seq<Consent>)
    requires Distinct(items)
    ensures Ordered(r) && forall c :: c in r <==> c in items
  {
    r := [];
    var n := 0;
    while n < |items|
      invariant 0 <= n <= |items| && Ordered(r) && forall c :: c in r <==> c in items[..n]
    {
      assert forall c :: c in items[..n] ==> c.pair != items[n].pair;
      InsertOrders(r, items[n]);
      r := Insert(r, items[n]);
      assert items[..n + 1] == items[..n] + [items[n]];
      n := n + 1;
    }
    assert items[..n] == items;
  }

  /** oauthConsentBackfillCandidates. */
  method CandidatesOf(tokens: seq<Token>) returns (r: seq<Consent>)
    ensures Candidates(tokens, r)
  {
    var grants := FoldTokens(tokens);
    FoldGrants(tokens);
    var candidates: seq<Consent> := [];
    var rest := grants.Keys;
    while rest != {}
      invariant rest <= grants.Keys
      invariant Gathered(tokens, grants, rest, candidates)
      decreases |rest|
    {
      var k :| k in rest;
      rest := rest - {k};
      var item := grants[k];
      var scopes := SortSet(item.scopes);
      IncreasingUnique(scopes, Sorted(item.scopes));
      var candidate := Consent(item.pair, Join(scopes), item.grantedAt, false);
      GatherOne(tokens, grants, rest, k, candidates, candidate);
      candidates := candidates + [candidate];
    }
    r := SortByPair(candidates);
    GatheredAll(tokens, grants, candidates, r);
  }

  /** The candidates made from the entries that are not left. */
  ghost predicate Gathered(tokens: seq<Token>, grants: map<string, Grant>, rest: set<string>,
      candidates: seq<Consent>) {
    && (forall c :: c in candidates ==> Summary(tokens, c) && Key(c.pair) !in rest)
    && (forall k :: k in grants && k !in rest ==> Named(candidates, grants[k].pair))
    && Distinct(candidates)
  }

  lemma GatherOne(tokens: seq<Token>, grants: map<string, Grant>, rest: set<string>, k: string,
      candidates: seq<Consent>,
      c: Consent)
    requires k in grants && Folded(tokens, k, grants[k]) && Gathered(tokens, grants, rest + {k}, candidates)
        && k !in rest
    requires c == Consent(grants[k].pair, Join(Sorted(grants[k].scopes)), grants[k].grantedAt, false)
    ensures Gathered(tokens, grants, rest, candidates + [c])
  {}

  lemma GatheredAll(tokens: seq<Token>, grants: map<string, Grant>, candidates: seq<Consent>, r: seq<Consent>)
    requires Grants(tokens, grants) && Gathered(tokens, grants, {}, candidates)
    requires Ordered(r) && forall c :: c in r <==> c in candidates
    ensures Candidates(tokens, r)
  {
    forall t | t in tokens ensures Named(r, t.pair) {
      assert Holds(tokens, t.pair);
      var g := grants[Key(t.pair)];
      KeyInjective(g.pair, t.pair);
      var c :| c in candidates && c.pair == g.pair;
    }
  }

  // ---------------------------------------------------------------- the transaction

  predicate Unexpired(t: Token, now: Time) {
    !t.revoked && (t.expires > now || t.refreshExpires > now)
  }

  function Live(tokens: seq<Token>, now: Time): seq<Token> {
    if tokens == [] then [] else (if Unexpired(tokens[0], now) then [tokens[0]] else []) + Live(tokens[1..], now)
  }

  lemma {:induction false} LiveMembers(tokens: seq<Token>, now: Time)
    ensures forall t :: t in Live(tokens, now) <==> t in tokens && Unexpired(t, now)
  {
    if tokens != [] {
      LiveMembers(tokens[1..], now);
      assert forall t :: t in tokens <==> t == tokens[0] || t in tokens[1..];
    }
  }

  /** consentCovers. */
  ghost predicate Covers(consents: map<Pair, Consent>, t: Token) {
    && t.pair in consents && !consents[t.pair].revoked
    && t.scope != "" && Words(t.scope) <= Words(consents[t.pair].scope)
  }

  /** What the backfill leaves: the rows that were there, and a summary for each other pair with a grant. */
  ghost predicate Backfilled(tokens: seq<Token>, now: Time, before: map<Pair, Consent>, after: map<Pair, Consent>) {
    && (forall p :: p in before ==> p in after && after[p] == before[p])
    && (forall p :: p in after && p !in before ==> after[p].pair == p && Summary(Live(tokens, now), after[p]))
    && (forall t :: t in tokens && Unexpired(t, now) ==> t.pair in after)
  }

  class Store {
    var tokens: seq<Token>
    var consents: map<Pair, Consent>

    constructor (tokens: seq<Token>, consents: map<Pair, Consent>)
      ensures this.tokens == tokens && this.consents == consents
    {
      this.tokens, this.consents := tokens, consents;
    }

    /** backfillOAuthConsentsFromActiveGrants. */
    method Backfill(now: Time)
      modifies this`consents
      ensures Backfilled(tokens, now, old(consents), consents)
    {
      var candidates := CandidatesOf(Live(tokens, now));
      var n := 0;
      while n < |candidates|
        invariant 0 <= n <= |candidates| && Written(candidates[..n], old(consents), consents)
      {
        var candidate := candidates[n];
        WriteOne(candidates[..n], candidate, old(consents), consents);
        if candidate.pair !in consents {
          consents := consents[candidate.pair := candidate];
        }
        assert candidates[..n + 1] == candidates[..n] + [candidate];
        n := n + 1;
      }
      assert candidates[..n] == candidates;
      WrittenAll(tokens, now, candidates, old(consents), consents);
    }
  }

  /** The rows once some candidates have been looked up. */
  ghost predicate Written(candidates: seq<Consent>, before: map<Pair, Consent>, after: map<Pair, Consent>) {
    && (forall p :: p in before ==> p in after && after[p] == before[p])
    && (forall p :: p in after && p !in before ==> after[p].pair == p && after[p] in candidates)
    && (forall c :: c in candidates ==> c.pair in after)
  }

  lemma WriteOne(candidates: seq<Consent>, c: Consent, before: map<Pair, Consent>, after: map<Pair, Consent>)
    requires Written(candidates, before, after)
    ensures Written(candidates + [c], before, if c.pair in after then after else after[c.pair := c])
  {}

  lemma WrittenAll(tokens: seq<Token>, now: Time, candidates: seq<Consent>, before: map<Pair, Consent>,
      after: map<Pair, Consent>)
    requires Candidates(Live(tokens, now), candidates) && Written(candidates, before, after)
    ensures Backfilled(tokens, now, before, after)
  {
    LiveMembers(tokens, now);
    forall t | t in Live(tokens, now) ensures t.pair in after {
      assert Named(candidates, t.pair);
    }
  }

  /** After the backfill a grant that still works is covered exactly when its scope names something and
      the store had no consent row for it, or one that covers it: a revoked or narrower row stays as it
      is.  In a store without consents every such grant is covered. */
  lemma BackfillCovers(tokens: seq<Token>, now: Time, before: map<Pair, Consent>, after: map<Pair, Consent>, t: Token)
    requires Backfilled(tokens, now, before, after) && t in tokens
    requires !t.revoked && (t.expires > now || t.refreshExpires > now)
    ensures Covers(after, t) <==> t.scope != "" && (t.pair !in before || Covers(before, t))
    ensures Covers(after, t) <==>
            && t.scope != "" && t.pair in after && !after[t.pair].revoked
            && (t.pair in before ==> !before[t.pair].revoked && Words(t.scope) <= Words(before[t.pair].scope))
  {
    LiveMembers(tokens, now);
    if t.pair !in before {
      var words := ScopesOf(Live(tokens, now), t.pair);
      assert Words(t.scope) <= words;
      JoinedWords(Live(tokens, now), t.pair);
    }
  }

  lemma JoinedWords(tokens: seq<Token>, p: Pair)
    ensures Words(Join(Sorted(ScopesOf(tokens, p)))) == ScopesOf(tokens, p)
  {
    var words := ScopesOf(tokens, p);
    forall w | w in Sorted(words) ensures Word(w) {
      assert w in Elements(Sorted(words));
      var t :| t in tokens && t.pair == p && w in Words(t.scope);
      FieldsAreWords(t.scope);
    }
    FieldsOfJoin(Sorted(words));
  }

  /** Nothing more is granted than the pair's tokens already could: a new row names no other word. */
  lemma BackfillGrantsNoMore(tokens: seq<Token>, now: Time, before: map<Pair, Consent>, after: map<Pair, Consent>,
      p: Pair,
      w: string)
    requires Backfilled(tokens, now, before, after) && p in after && p !in before && w in Words(after[p].scope)
    ensures exists t :: t in tokens && !t.revoked && (t.expires > now || t.refreshExpires > now) && t.pair == p
                        && w in Words(t.scope)
  {
    LiveMembers(tokens, now);
    JoinedWords(Live(tokens, now), p);
  }

  /** Starting again, at any time, changes nothing as long as no new grant appears. */
  lemma BackfillOnce(tokens: seq<Token>, now: Time, later: Time, before: map<Pair, Consent>, after: map<Pair, Consent>,
      again: map<Pair, Consent>)
    requires now <= later && Backfilled(tokens, now, before, after) && Backfilled(tokens, later, after, again)
    ensures again == after
  {
    LiveMembers(tokens, now);
    LiveMembers(tokens, later);
    assert forall t :: t in Live(tokens, later) ==> t.pair in after;
    assert forall p :: p in again && p !in after ==> Earliest(Live(tokens, later), p, again[p].grantedAt);
  }
}
