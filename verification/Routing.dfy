/** The order of address patterns and the choice of the callback for an address. */
module Routing {
  import opened Options
  import opened Urls

  type Pattern = seq<PatternToken>
  type Address = seq<Token>

  // ---------- the order that std::map uses ----------

  /** Strings compare like sequences of characters. */
  predicate StringLess(a: string, b: string)
    decreases |a|
  {
    if b == "" then false
    else if a == "" then true
    else if a[0] != b[0] then a[0] < b[0]
    else StringLess(a[1..], b[1..])
  }

  /** Variants compare first by alternative, then by value: text before numbers. */
  predicate TokenLess(a: Token, b: Token) {
    match (a, b)
    case (Text(s), Text(t)) => StringLess(s, t)
    case (Text(_), Number(_)) => true
    case (Number(_), Text(_)) => false
    case (Number(m), Number(n)) => m < n
  }

  /** Static tokens come before wildcards, the string wildcard before the integer one. */
  predicate PatternTokenLess(a: PatternToken, b: PatternToken) {
    match (a, b)
    case (Static(x), Static(y)) => TokenLess(x, y)
    case (Static(_), Wild(_)) => true
    case (Wild(_), Static(_)) => false
    case (Wild(x), Wild(y)) => x == STRING && y == INT
  }

  /** Patterns compare like vectors, token by token. */
  predicate Less(a: Pattern, b: Pattern)
    decreases |a|
  {
    if b == [] then false
    else if a == [] then true
    else if a[0] != b[0] then PatternTokenLess(a[0], b[0])
    else Less(a[1..], b[1..])
  }

  // ---------- it is a strict total order ----------

  lemma {:induction false} StringOrder(a: string, b: string, c: string)
    ensures !StringLess(a, a)
    ensures StringLess(a, b) || a == b || StringLess(b, a)
    ensures !(StringLess(a, b) && StringLess(b, a))
    ensures StringLess(a, b) && StringLess(b, c) ==> StringLess(a, c)
    decreases |a|
  {
    if a != "" {
      if b != "" {
        assert a == [a[0]] + a[1..] && b == [b[0]] + b[1..];
        StringOrder(a[1..], b[1..], if c != "" then c[1..] else "");
      } else {
        StringOrder(a[1..], "", "");
      }
    }
  }

  lemma TokenOrder(a: PatternToken, b: PatternToken, c: PatternToken)
    ensures !PatternTokenLess(a, a)
    ensures PatternTokenLess(a, b) || a == b || PatternTokenLess(b, a)
    ensures !(PatternTokenLess(a, b) && PatternTokenLess(b, a))
    ensures PatternTokenLess(a, b) && PatternTokenLess(b, c) ==> PatternTokenLess(a, c)
  {
    var text := (t: PatternToken) => if t.Static? && t.token.Text? then t.token.text else "";
    StringOrder(text(a), text(b), text(c));
  }

  /** The order of patterns is irreflexive, total, asymmetric and transitive. */
  lemma {:induction false} PatternOrder(a: Pattern, b: Pattern, c: Pattern)
    ensures !Less(a, a)
    ensures Less(a, b) || a == b || Less(b, a)
    ensures !(Less(a, b) && Less(b, a))
    ensures Less(a, b) && Less(b, c) ==> Less(a, c)
    decreases |a|
  {
    hide PatternTokenLess;
    if a != [] {
      if b != [] {
        assert a == [a[0]] + a[1..] && b == [b[0]] + b[1..];
        TokenOrder(a[0], b[0], if c != [] then c[0] else a[0]);
        PatternOrder(a[1..], b[1..], if c != [] then c[1..] else []);
      } else {
        PatternOrder(a[1..], [], []);
      }
    }
  }

  /** A smaller string is a proper prefix, or has the smaller character where the two first differ. */
  lemma {:induction false} StringLessMeans(a: string, b: string)
    ensures StringLess(a, b) <==>
              a < b || exists i :: 0 <= i < |a| && i < |b| && a[..i] == b[..i] && a[i] < b[i]
    decreases |a|
  {
    if a != "" && b != "" {
      var c, d := a[1..], b[1..];
      StringLessMeans(c, d);
      assert a == [a[0]] + c && b == [b[0]] + d;
      if a[0] == b[0] {
        assert a < b <==> c < d;
        if i :| 0 <= i < |c| && i < |d| && c[..i] == d[..i] && c[i] < d[i] {
          assert a[..i + 1] == [a[0]] + c[..i] && b[..i + 1] == [b[0]] + d[..i];
          assert a[i + 1] < b[i + 1];
        }
        if i :| 0 <= i < |a| && i < |b| && a[..i] == b[..i] && a[i] < b[i] {
          assert c[..i - 1] == a[..i][1..] && d[..i - 1] == b[..i][1..];
          assert c[i - 1] < d[i - 1];
        }
      } else {
        assert a[..0] == b[..0];
        assert forall i | 0 < i <= |a| && i <= |b| :: a[..i][0] != b[..i][0];
      }
    }
  }

  /** Texts come before numbers, those before "<string>", and that before "<int>". */
  function Class(token: PatternToken): nat {
    if token.Wild? then (if token.dynamic == STRING then 2 else 3) else if token.token.Text? then 0 else 1
  }

  lemma TokenLessMeans(a: PatternToken, b: PatternToken)
    ensures PatternTokenLess(a, b) <==>
              || Class(a) < Class(b)
              || (Class(a) == Class(b) == 0 && StringLess(a.token.text, b.token.text))
              || (Class(a) == Class(b) == 1 && a.token.number < b.token.number)
  {
  }

  /** The two patterns first differ at i, where a has the smaller token. */
  predicate SmallerAt(a: Pattern, b: Pattern, i: nat) {
    i < |a| && i < |b| && a[..i] == b[..i] && PatternTokenLess(a[i], b[i])
  }

  lemma SmallerLater(a: Pattern, b: Pattern, i: nat)
    requires a != [] && b != []
    ensures SmallerAt(a, b, i + 1) <==> a[0] == b[0] && SmallerAt(a[1..], b[1..], i)
  {
    hide PatternTokenLess;
    if i + 1 < |a| && i + 1 < |b| {
      assert a[..i + 1] == [a[0]] + a[1..][..i] && b[..i + 1] == [b[0]] + b[1..][..i];
      assert a[1..][..i] == a[..i + 1][1..] && b[1..][..i] == b[..i + 1][1..];
    }
  }

  /** A smaller pattern is a proper prefix, or has the smaller token where the two first differ. */
  lemma {:induction false} LessMeans(a: Pattern, b: Pattern)
    ensures Less(a, b) <==> a < b || exists i: nat :: SmallerAt(a, b, i)
    decreases |a|
  {
    hide PatternTokenLess, SmallerAt;
    if a != [] && b != [] {
      LessMeans(a[1..], b[1..]);
      TokenOrder(a[0], b[0], a[0]);
      assert SmallerAt(a, b, 0) <==> PatternTokenLess(a[0], b[0]) by {
        SmallerFirst(a, b);
      }
      assert a == [a[0]] + a[1..] && b == [b[0]] + b[1..];
      if i: nat :| i > 0 && SmallerAt(a, b, i) {
        SmallerLater(a, b, i - 1);
      }
      if i: nat :| SmallerAt(a[1..], b[1..], i) {
        SmallerLater(a, b, i);
      }
    } else {
      SmallerNever(a, b);
    }
  }

  lemma SmallerFirst(a: Pattern, b: Pattern)
    requires a != [] && b != []
    ensures SmallerAt(a, b, 0) <==> PatternTokenLess(a[0], b[0])
  {
    assert a[..0] == b[..0];
  }

  lemma SmallerNever(a: Pattern, b: Pattern)
    requires a == [] || b == []
    ensures forall i: nat :: !SmallerAt(a, b, i)
  {
  }

  // ---------- matching ----------

  predicate TokenMatches(token: Token, pattern: PatternToken) {
    match pattern
    case Static(t) => t == token
    case Wild(INT) => token.Number?
    case Wild(STRING) => token.Text?
  }

  /** operator== between an address and a pattern. */
  predicate Matches(address: Address, pattern: Pattern) {
    && |address| == |pattern|
    && forall i | 0 <= i < |address| :: TokenMatches(address[i], pattern[i])
  }

  /** Piece p of an address agrees with piece q of a pattern: any number with "<int>", any text with "<string>", and
      otherwise the same text or two spellings of the same number. */
  predicate PieceSuits(p: string, q: string) {
    if q == "<int>" then AllDigits(p)
    else if q == "<string>" then !AllDigits(p)
    else if AllDigits(p) then AllDigits(q) && Value(p) == Value(q)
    else p == q
  }

  /** The address and the pattern have the same number of pieces, and each agrees with its counterpart. */
  predicate Suits(url: string, pattern: string) {
    && |Split(url)| == |Split(pattern)|
    && forall i | 0 <= i < |Split(url)| :: PieceSuits(Split(url)[i], Split(pattern)[i])
  }

  lemma PieceMatches(p: string, q: string)
    requires ProcessToken(p).Some? && ProcessPatternToken(q).Some?
    ensures TokenMatches(ProcessToken(p).value, ProcessPatternToken(q).value) <==> PieceSuits(p, q)
  {
  }

  /** What matching means for the strings that addresses and patterns are written as. */
  lemma MatchesMeans(url: string, pattern: string)
    requires Tokens(url).Some? && PatternTokens(pattern).Some?
    ensures Matches(Tokens(url).value, PatternTokens(pattern).value) <==> Suits(url, pattern)
  {
    hide TokenMatches, PieceSuits, ProcessToken, ProcessPatternToken, Split;
    var ps, qs := Split(url), Split(pattern);
    ProcessAllAt(ProcessToken, ps);
    ProcessAllAt(ProcessPatternToken, qs);
    if |ps| == |qs| {
      forall i | 0 <= i < |ps|
        ensures TokenMatches(Tokens(url).value[i], PatternTokens(pattern).value[i]) <==> PieceSuits(ps[i], qs[i])
      {
        PieceMatches(ps[i], qs[i]);
      }
    }
  }

  method CheckMatch(address: Address, pattern: Pattern) returns (ok: bool)
    ensures ok == Matches(address, pattern)
    ensures ok <==> |address| == |pattern| && forall i | 0 <= i < |address| ::
                      || pattern[i] == Static(address[i])
                      || (pattern[i] == Wild(INT) && address[i].Number?)
                      || (pattern[i] == Wild(STRING) && address[i].Text?)
    ensures forall u, v | Tokens(u) == Some(address) && PatternTokens(v) == Some(pattern) :: ok <==> Suits(u, v)
  {
    forall u, v | Tokens(u) == Some(address) && PatternTokens(v) == Some(pattern)
      ensures Matches(address, pattern) <==> Suits(u, v)
    {
      MatchesMeans(u, v);
    }
    if |address| != |pattern| {
      return false;
    }
    for i := 0 to |address|
      invariant forall j | 0 <= j < i :: TokenMatches(address[j], pattern[j])
    {
      if !TokenMatches(address[i], pattern[i]) {
        return false;
      }
    }
    ok := true;
  }

  /** The first position where two sequences differ. */
  function FirstDifference<T(==)>(a: seq<T>, b: seq<T>): (i: nat)
    requires |a| == |b|
    ensures i <= |a| && a[..i] == b[..i]
    ensures a != b ==> i < |a| && a[i] != b[i]
  {
    if a == [] || a[0] != b[0] then 0
    else
      var i := 1 + FirstDifference(a[1..], b[1..]);
      assert a[..i] == [a[0]] + a[1..][..i - 1] && b[..i] == [b[0]] + b[1..][..i - 1];
      i
  }

  lemma {:induction false} LessAtDifference(a: Pattern, b: Pattern, i: nat)
    requires |a| == |b| && i < |a| && a[..i] == b[..i] && a[i] != b[i]
    ensures Less(a, b) <==> PatternTokenLess(a[i], b[i])
    decreases i
  {
    if i > 0 {
      assert a[0] == a[..i][0] && b[0] == b[..i][0];
      assert a[1..][..i - 1] == a[..i][1..] && b[1..][..i - 1] == b[..i][1..];
      LessAtDifference(a[1..], b[1..], i - 1);
    }
  }

  /** Of two different patterns for the same address exactly one is static where they first differ, and it is
      the smaller one: being specific early on gives priority. */
  lemma StaticFirst(address: Address, a: Pattern, b: Pattern)
    requires Matches(address, a) && Matches(address, b) && a != b
    ensures var i := FirstDifference(a, b);
            && i < |a| && i < |b| && (a[i].Static? <==> !b[i].Static?)
            && (Less(a, b) <==> a[i].Static?)
  {
    var i := FirstDifference(a, b);
    assert TokenMatches(address[i], a[i]) && TokenMatches(address[i], b[i]);
    LessAtDifference(a, b, i);
  }

  // ---------- the table of callbacks ----------

  /** The entries of the map in its order. */
  type Table<H> = seq<(Pattern, H)>

  ghost predicate Sorted<H>(table: Table<H>) {
    forall i, j | 0 <= i < j < |table| :: Less(table[i].0, table[j].0)
  }

  /** The position of the first entry whose pattern is not smaller than the given one. */
  function LowerBound<H>(table: Table<H>, pattern: Pattern): (i: nat)
    ensures i <= |table|
    ensures forall j | 0 <= j < i :: Less(table[j].0, pattern)
    ensures i < |table| ==> !Less(table[i].0, pattern)
  {
    if table == [] || !Less(table[0].0, pattern) then 0 else 1 + LowerBound(table[1..], pattern)
  }

  /** try_emplace: an entry that is there stays. */
  function TryEmplace<H>(table: Table<H>, pattern: Pattern, handler: H): (Table<H>, bool) {
    var i := LowerBound(table, pattern);
    if i < |table| && table[i].0 == pattern then (table, false)
    else (table[..i] + [(pattern, handler)] + table[i..], true)
  }

  function Registered<H>(table: Table<H>, requests: seq<(Pattern, H)>): Table<H>
    decreases |requests|
  {
    if requests == [] then table else Registered(TryEmplace(table, requests[0].0, requests[0].1).0, requests[1..])
  }

  /** The scan: the first entry whose pattern matches. */
  function Route<H>(table: Table<H>, address: Address): Option<(Pattern, H)> {
    if table == [] then None
    else if Matches(address, table[0].0) then Some(table[0])
    else Route(table[1..], address)
  }

  // ---------- what the table holds ----------

  lemma EmplaceSorted<H>(table: Table<H>, pattern: Pattern, handler: H)
    requires Sorted(table)
    ensures Sorted(TryEmplace(table, pattern, handler).0)
    ensures TryEmplace(table, pattern, handler).1 <==> forall e <- table :: e.0 != pattern
    ensures forall e :: e in TryEmplace(table, pattern, handler).0 <==>
              e in table || (e == (pattern, handler) && TryEmplace(table, pattern, handler).1)
  {
    hide Less;
    var i := LowerBound(table, pattern);
    var table' := TryEmplace(table, pattern, handler).0;
    forall j | i <= j < |table| ensures table[j].0 == pattern ==> j == i && table[i].0 == pattern {
      if j > i {
        PatternOrder(table[i].0, table[j].0, table[j].0);
      }
    }
    forall j | 0 <= j < i ensures table[j].0 != pattern {
      PatternOrder(pattern, pattern, pattern);
    }
    if TryEmplace(table, pattern, handler).1 {
      forall j | i <= j < |table| ensures Less(pattern, table[j].0) {
        PatternOrder(table[i].0, pattern, pattern);
        PatternOrder(pattern, table[i].0, table[j].0);
      }
    }
  }

  ghost predicate IsFirst<H>(requests: seq<(Pattern, H)>, e: (Pattern, H)) {
    exists i :: 0 <= i < |requests| && requests[i] == e && forall j | 0 <= j < i :: requests[j].0 != e.0
  }

  /** After any registrations the table holds, for each pattern, what was registered for it first. */
  lemma {:induction false} RegisteredHolds<H(!new)>(table: Table<H>, requests: seq<(Pattern, H)>)
    requires Sorted(table)
    ensures Sorted(Registered(table, requests))
    ensures forall e :: e in Registered(table, requests) <==>
              e in table || (IsFirst(requests, e) && forall f <- table :: f.0 != e.0)
    decreases |requests|
  {
    if requests != [] {
      hide Sorted, TryEmplace;
      var (p, h) := requests[0];
      var table1 := TryEmplace(table, p, h).0;
      EmplaceSorted(table, p, h);
      RegisteredHolds(table1, requests[1..]);
      forall e ensures e in Registered(table, requests) <==>
          e in table || (IsFirst(requests, e) && forall f <- table :: f.0 != e.0) {
        FirstOrLater(requests, e);
        assert e in Registered(table, requests) <==>
                 e in table1 || (IsFirst(requests[1..], e) && forall f <- table1 :: f.0 != e.0);
        assert TryEmplace(table, p, h).1 ==> (p, h) in table1;
      }
    }
  }

  lemma FirstOrLater<H>(requests: seq<(Pattern, H)>, e: (Pattern, H))
    requires requests != []
    ensures IsFirst(requests, e) <==> e == requests[0] || (e.0 != requests[0].0 && IsFirst(requests[1..], e))
  {
    var rest := requests[1..];
    if IsFirst(requests, e) {
      var i :| 0 <= i < |requests| && requests[i] == e && forall j | 0 <= j < i :: requests[j].0 != e.0;
      if i > 0 {
        assert rest[i - 1] == e && forall j | 0 <= j < i - 1 :: rest[j] == requests[j + 1];
      }
    }
    if e.0 != requests[0].0 && IsFirst(rest, e) {
      var i :| 0 <= i < |rest| && rest[i] == e && forall j | 0 <= j < i :: rest[j].0 != e.0;
      assert requests[i + 1] == e && forall j | 0 < j < i + 1 :: requests[j] == rest[j - 1];
    }
  }

  // ---------- what the scan chooses ----------

  ghost predicate LeastMatch<H>(table: Table<H>, address: Address, e: (Pattern, H)) {
    && e in table && Matches(address, e.0)
    && forall f <- table :: Matches(address, f.0) ==> f == e || Less(e.0, f.0)
  }

  /** The scan chooses the least matching pattern, and none only if none matches. */
  lemma {:induction false} RouteChoosesLeast<H(!new)>(table: Table<H>, address: Address)
    requires Sorted(table)
    ensures Route(table, address).None? <==> forall f <- table :: !Matches(address, f.0)
    ensures forall e :: Route(table, address) == Some(e) <==> LeastMatch(table, address, e)
    decreases |table|
  {
    hide Less, Matches;
    if table != [] {
      assert table == [table[0]] + table[1..];
      RouteChoosesLeast(table[1..], address);
      forall f <- table[1..] ensures Less(table[0].0, f.0) {
        var i :| 0 <= i < |table[1..]| && table[1..][i] == f;
        assert table[i + 1] == f;
      }
      forall e ensures Route(table, address) == Some(e) <==> LeastMatch(table, address, e) {
        if e in table[1..] {
          PatternOrder(table[0].0, e.0, e.0);
        }
        PatternOrder(e.0, table[0].0, table[0].0);
      }
    }
  }

  /** After any registrations: the first registration of the least pattern that matches. */
  ghost predicate FirstLeast<H(!new)>(requests: seq<(Pattern, H)>, address: Address, e: (Pattern, H)) {
    && IsFirst(requests, e) && Matches(address, e.0)
    && forall f | IsFirst(requests, f) && Matches(address, f.0) :: f == e || Less(e.0, f.0)
  }

  lemma LeastOfRegistered<H(!new)>(requests: seq<(Pattern, H)>, address: Address, e: (Pattern, H))
    ensures Sorted(Registered([], requests))
    ensures LeastMatch(Registered([], requests), address, e) <==> FirstLeast(requests, address, e)
  {
    hide Less, Matches, IsFirst, Registered;
    RegisteredHolds([], requests);
  }

  /** The chosen pattern against any other that matches: at the first difference only the chosen one is static. */
  lemma ChosenIsMostSpecific<H(!new)>(table: Table<H>, address: Address, other: (Pattern, H))
    requires Sorted(table) && other in table && Matches(address, other.0)
    ensures Route(table, address).Some?
    ensures var chosen := Route(table, address).value;
            chosen == other ||
            (Matches(address, chosen.0) && |chosen.0| == |other.0| &&
             var i := FirstDifference(chosen.0, other.0); i < |chosen.0| && chosen.0[i].Static? && !other.0[i].Static?)
  {
    hide Less, Sorted;
    RouteChoosesLeast(table, address);
    var chosen := Route(table, address).value;
    assert LeastMatch(table, address, chosen);
    if chosen != other {
      PatternOrder(chosen.0, other.0, other.0);
      StaticFirst(address, chosen.0, other.0);
    }
  }

  ghost predicate DistinctPatterns<H>(requests: seq<(Pattern, H)>) {
    forall i, j | 0 <= i < j < |requests| :: requests[i].0 != requests[j].0
  }

  lemma AllFirst<H>(requests: seq<(Pattern, H)>, e: (Pattern, H))
    requires DistinctPatterns(requests)
    ensures IsFirst(requests, e) <==> e in requests
  {
  }

  /** Two histories in which each pattern was first registered with the same handler route alike. */
  lemma SameFirstsSameRoute<H(!new)>(a: seq<(Pattern, H)>, b: seq<(Pattern, H)>, address: Address)
    requires forall e :: IsFirst(a, e) <==> IsFirst(b, e)
    ensures Route(Registered([], a), address) == Route(Registered([], b), address)
  {
    hide Less, Matches, IsFirst;
    RegisteredHolds([], a);
    RegisteredHolds([], b);
    var s, t := Registered([], a), Registered([], b);
    assert forall e :: e in s <==> e in t;
    RouteChoosesLeast(s, address);
    RouteChoosesLeast(t, address);
    if Route(s, address).Some? {
      assert LeastMatch(s, address, Route(s, address).value);
      assert LeastMatch(t, address, Route(s, address).value);
    }
  }

  lemma TwiceCounts<T>(b: seq<T>, i: nat, j: nat)
    requires i < j < |b|
    ensures b[i] == b[j] ==> multiset(b)[b[i]] >= 2
  {
    assert b == b[..j] + [b[j]] + b[j + 1..];
    assert b[..j][i] == b[i];
  }

  lemma {:induction false} OnceCounts<H>(a: seq<(Pattern, H)>, e: (Pattern, H))
    requires DistinctPatterns(a)
    ensures multiset(a)[e] <= 1
    decreases |a|
  {
    if a != [] {
      var rest := a[..|a| - 1];
      assert a == rest + [a[|a| - 1]];
      OnceCounts(rest, e);
      assert forall f <- rest :: f.0 != a[|a| - 1].0;
    }
  }

  lemma PermutationDistinct<H>(a: seq<(Pattern, H)>, b: seq<(Pattern, H)>)
    requires DistinctPatterns(a) && multiset(a) == multiset(b)
    ensures DistinctPatterns(b)
  {
    forall i, j | 0 <= i < j < |b| ensures b[i].0 != b[j].0 {
      TwiceCounts(b, i, j);
      OnceCounts(a, b[i]);
      assert b[i] in multiset(b) && b[j] in multiset(b);
      var x :| 0 <= x < |a| && a[x] == b[i];
      var y :| 0 <= y < |a| && a[y] == b[j];
      assert x != y;
    }
  }

  /** The order in which different patterns are registered does not matter. */
  lemma OrderIrrelevant<H(!new)>(a: seq<(Pattern, H)>, b: seq<(Pattern, H)>, address: Address)
    requires DistinctPatterns(a) && multiset(a) == multiset(b)
    ensures Route(Registered([], a), address) == Route(Registered([], b), address)
  {
    PermutationDistinct(a, b);
    forall e ensures IsFirst(a, e) <==> IsFirst(b, e) {
      AllFirst(a, e);
      AllFirst(b, e);
      assert e in a <==> e in multiset(a);
      assert e in b <==> e in multiset(b);
    }
    SameFirstsSameRoute(a, b, address);
  }

  // ---------- the server's part ----------

  /** The map m_urls and the two loops over it. */
  class Router<H(!new)> {
    var urls: Table<H>

    constructor ()
      ensures urls == []
    {
      urls := [];
    }

    method RegisterCallback(pattern: Pattern, handler: H) returns (inserted: bool)
      requires Sorted(urls)
      modifies this
      ensures (urls, inserted) == TryEmplace(old(urls), pattern, handler)
      ensures Sorted(urls)
    {
      EmplaceSorted(urls, pattern, handler);
      var i := 0;
      while i < |urls| && Less(urls[i].0, pattern)
        invariant i <= |urls|
        invariant LowerBound(urls, pattern) == i + LowerBound(urls[i..], pattern)
      {
        assert urls[i..][1..] == urls[i + 1..];
        i := i + 1;
      }
      if i < |urls| && urls[i].0 == pattern {
        return false;
      }
      urls := urls[..i] + [(pattern, handler)] + urls[i..];
      inserted := true;
    }

    method FindCallback(address: Address) returns (found: Option<(Pattern, H)>)
      ensures found == Route(urls, address)
    {
      var i := 0;
      while i < |urls|
        invariant i <= |urls|
        invariant Route(urls, address) == Route(urls[i..], address)
      {
        var ok := CheckMatch(address, urls[i].0);
        if ok {
          return Some(urls[i]);
        }
        assert urls[i..][1..] == urls[i + 1..];
        i := i + 1;
      }
      found := None;
    }
  }
}
