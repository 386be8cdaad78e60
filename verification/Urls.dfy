/** Splitting an address into tokens, and the tokens of addresses and of address patterns. */
module Urls {
  import opened Options

  const SLASH: char := '/'
  const INT_MAX: int := 0x7fff_ffff

  datatype Token = Text(text: string) | Number(number: int)

  datatype Dynamic = STRING | INT

  datatype PatternToken = Static(token: Token) | Wild(dynamic: Dynamic)

  // ---------- splitting ----------

  function Flush(current: string): seq<string> {
    if current == "" then [] else [current]
  }

  /** The non-empty pieces between slashes, when current has been collected of the first piece. */
  function Pieces(current: string, rest: string): seq<string>
    decreases |rest|
  {
    if rest == "" then Flush(current)
    else if rest[0] == SLASH then Flush(current) + Pieces("", rest[1..])
    else Pieces(current + [rest[0]], rest[1..])
  }

  function Split(url: string): seq<string> {
    Pieces("", url)
  }

  lemma {:induction false} PiecesJoin(current: string, a: string, b: string)
    ensures Pieces(current, a + [SLASH] + b) == Pieces(current, a) + Pieces("", b)
    decreases |a|
  {
    if a == "" {
      assert a + [SLASH] + b == [SLASH] + b;
      assert ([SLASH] + b)[1..] == b;
    } else {
      var whole := a + [SLASH] + b;
      assert whole[0] == a[0] && whole[1..] == a[1..] + [SLASH] + b;
      PiecesJoin(if a[0] == SLASH then "" else current + [a[0]], a[1..], b);
    }
  }

  lemma {:induction false} PiecesOfPiece(current: string, rest: string)
    requires SLASH !in rest
    ensures Pieces(current, rest) == Flush(current + rest)
    decreases |rest|
  {
    if rest == "" {
      assert current + rest == current;
    } else {
      PiecesOfPiece(current + [rest[0]], rest[1..]);
      assert current + [rest[0]] + rest[1..] == current + rest;
    }
  }

  /** Splitting is the one way of cutting at slashes that drops empty pieces. */
  lemma SplitLaws(a: string, b: string)
    ensures Split(a + [SLASH] + b) == Split(a) + Split(b)
    ensures SLASH !in a ==> Split(a) == if a == "" then [] else [a]
  {
    PiecesJoin("", a, b);
    if SLASH !in a {
      PiecesOfPiece("", a);
      assert "" + a == a;
    }
  }

  lemma {:induction false} PiecesProper(current: string, rest: string)
    requires SLASH !in current
    ensures forall p <- Pieces(current, rest) :: p != "" && SLASH !in p
    decreases |rest|
  {
    if rest != "" {
      PiecesProper(if rest[0] == SLASH then "" else current + [rest[0]], rest[1..]);
    }
  }

  // ---------- tokens ----------

  predicate IsDigit(c: char) {
    '0' <= c <= '9'
  }

  predicate AllDigits(s: string) {
    forall i | 0 <= i < |s| :: IsDigit(s[i])
  }

  function Value(s: string): (n: nat)
    requires AllDigits(s)
  {
    if s == "" then 0 else 10 * Value(s[..|s| - 1]) + (s[|s| - 1] as int - '0' as int)
  }

  /** Leading zeros do not count, so different pieces may stand for one number. */
  lemma {:induction false} LeadingZero(s: string)
    requires AllDigits(s)
    ensures AllDigits("0" + s) && Value("0" + s) == Value(s)
    decreases |s|
  {
    var t := "0" + s;
    if s == "" {
      assert t[..|t| - 1] == "";
    } else {
      assert t[..|t| - 1] == "0" + s[..|s| - 1];
      LeadingZero(s[..|s| - 1]);
    }
  }

  /** Url::processToken; None stands for the exception that stoi throws on a number out of range. */
  function ProcessToken(s: string): Option<Token> {
    if AllDigits(s) then (if Value(s) <= INT_MAX then Some(Number(Value(s))) else None) else Some(Text(s))
  }

  /** UrlPattern::processToken. A token in angle brackets that is neither kind of wildcard is static. */
  function ProcessPatternToken(s: string): Option<PatternToken> {
    if s == "<string>" then Some(Wild(STRING))
    else if s == "<int>" then Some(Wild(INT))
    else
      match ProcessToken(s)
      case Some(token) => Some(Static(token))
      case None => None
  }

  function ProcessAll<T>(process: string -> Option<T>, pieces: seq<string>): Option<seq<T>> {
    if pieces == [] then Some([])
    else
      match process(pieces[0])
      case None => None
      case Some(token) =>
        match ProcessAll(process, pieces[1..])
        case None => None
        case Some(tokens) => Some([token] + tokens)
  }

  /** The constructor of Url. */
  function Tokens(url: string): Option<seq<Token>> {
    ProcessAll(ProcessToken, Split(url))
  }

  /** The constructor of UrlPattern. */
  function PatternTokens(pattern: string): Option<seq<PatternToken>> {
    ProcessAll(ProcessPatternToken, Split(pattern))
  }

  lemma {:induction false} ProcessAllAt<T>(process: string -> Option<T>, pieces: seq<string>)
    ensures var r := ProcessAll(process, pieces);
            && (r.Some? <==> forall i | 0 <= i < |pieces| :: process(pieces[i]).Some?)
            && (r.Some? ==>
                  |r.value| == |pieces| && forall i | 0 <= i < |pieces| :: process(pieces[i]) == Some(r.value[i]))
    decreases |pieces|
  {
    if pieces != [] {
      ProcessAllAt(process, pieces[1..]);
      assert forall i | 0 < i < |pieces| :: pieces[i] == pieces[1..][i - 1];
      assert forall i | 0 <= i < |pieces[1..]| :: pieces[1..][i] == pieces[i + 1];
    }
  }

  /** A piece that stands for a number which stoi refuses. */
  predicate TooLarge(piece: string) {
    AllDigits(piece) && Value(piece) > 0x7fff_ffff
  }

  /** An address or a pattern is refused exactly for a number that is too large. */
  lemma ReadableUnlessTooLarge(url: string)
    ensures Tokens(url).None? <==> exists p <- Split(url) :: TooLarge(p)
    ensures PatternTokens(url).None? <==> exists p <- Split(url) :: TooLarge(p)
  {
    var pieces := Split(url);
    ProcessAllAt(ProcessToken, pieces);
    ProcessAllAt(ProcessPatternToken, pieces);
    forall p ensures ProcessToken(p).None? <==> TooLarge(p) {
    }
    forall p ensures ProcessPatternToken(p).None? <==> TooLarge(p) {
      NotDigits(p);
    }
  }

  lemma NotDigits(p: string)
    ensures p == "<string>" || p == "<int>" ==> !AllDigits(p)
  {
    assert p == "<string>" || p == "<int>" ==> !IsDigit(p[0]);
  }

  function Both<T>(a: Option<seq<T>>, b: Option<seq<T>>): Option<seq<T>> {
    if a.Some? && b.Some? then Some(a.value + b.value) else None
  }

  lemma {:induction false} ProcessAllSum<T>(process: string -> Option<T>, a: seq<string>, b: seq<string>)
    ensures ProcessAll(process, a + b) == Both(ProcessAll(process, a), ProcessAll(process, b))
    decreases |a|
  {
    if a == [] {
      assert a + b == b;
      if ProcessAll(process, b).Some? {
        assert [] + ProcessAll(process, b).value == ProcessAll(process, b).value;
      }
    } else {
      assert (a + b)[0] == a[0] && (a + b)[1..] == a[1..] + b;
      ProcessAllSum(process, a[1..], b);
      var rest, more := ProcessAll(process, a[1..]), ProcessAll(process, b);
      if process(a[0]).Some? && rest.Some? && more.Some? {
        assert [process(a[0]).value] + (rest.value + more.value) == [process(a[0]).value] + rest.value + more.value;
      }
    }
  }

  /** Joining two addresses with a slash joins their tokens. */
  lemma TokensJoin(a: string, b: string)
    ensures Tokens(a + [SLASH] + b) == Both(Tokens(a), Tokens(b))
    ensures PatternTokens(a + [SLASH] + b) == Both(PatternTokens(a), PatternTokens(b))
  {
    SplitLaws(a, b);
    ProcessAllSum(ProcessToken, Split(a), Split(b));
    ProcessAllSum(ProcessPatternToken, Split(a), Split(b));
  }

  // ---------- printing ----------

  function Digits(n: nat): (s: string)
    ensures s != "" && AllDigits(s)
  {
    var digit := ('0' as int + n % 10) as char;
    if n < 10 then [digit] else Digits(n / 10) + [digit]
  }

  lemma {:induction false} DigitsValue(n: nat)
    ensures Value(Digits(n)) == n
  {
    var digit := ('0' as int + n % 10) as char;
    if n < 10 {
      assert [digit][..0] == "";
    } else {
      DigitsValue(n / 10);
      assert Digits(n)[..|Digits(n)| - 1] == Digits(n / 10);
    }
  }

  /** Negative numbers do not occur in addresses. */
  function PrintToken(token: Token): string {
    match token
    case Text(text) => text
    case Number(n) => if n < 0 then "" else Digits(n)
  }

  function PrintPatternToken(token: PatternToken): string {
    match token
    case Static(t) => PrintToken(t)
    case Wild(STRING) => "<string>"
    case Wild(INT) => "<int>"
  }

  /** The tokens that reading an address can produce. */
  predicate Canonical(token: Token) {
    match token
    case Text(text) => text != "" && SLASH !in text && !AllDigits(text)
    case Number(n) => 0 <= n <= INT_MAX
  }

  predicate CanonicalPattern(token: PatternToken) {
    token.Static? ==> Canonical(token.token) && token.token != Text("<string>") && token.token != Text("<int>")
  }

  lemma TokenRoundTrip(token: Token)
    requires Canonical(token)
    ensures ProcessToken(PrintToken(token)) == Some(token)
    ensures PrintToken(token) != "" && SLASH !in PrintToken(token)
  {
    if token.Number? {
      DigitsValue(token.number);
      NoSlash(Digits(token.number));
    }
  }

  lemma NoSlash(s: string)
    requires AllDigits(s)
    ensures SLASH !in s
  {
  }

  lemma PatternTokenRoundTrip(token: PatternToken)
    requires CanonicalPattern(token)
    ensures ProcessPatternToken(PrintPatternToken(token)) == Some(token)
    ensures PrintPatternToken(token) != "" && SLASH !in PrintPatternToken(token)
  {
    match token
    case Static(t) =>
      TokenRoundTrip(t);
      if t.Number? {
        assert IsDigit(Digits(t.number)[0]);
      }
    case Wild(_) =>
  }

  function Print(tokens: seq<Token>): string {
    if tokens == [] then "" else [SLASH] + PrintToken(tokens[0]) + Print(tokens[1..])
  }

  function PrintPattern(tokens: seq<PatternToken>): string {
    if tokens == [] then "" else [SLASH] + PrintPatternToken(tokens[0]) + PrintPattern(tokens[1..])
  }

  /** One printed token in front of a printed address, itself empty or beginning with a slash. */
  lemma SplitPrinted(piece: string, rest: string)
    requires piece != "" && SLASH !in piece && (rest == "" || rest[0] == SLASH)
    ensures Split([SLASH] + piece + rest) == [piece] + Split(rest)
  {
    SplitLaws("", piece + rest);
    assert "" + [SLASH] + (piece + rest) == [SLASH] + piece + rest;
    if rest == "" {
      assert piece + rest == piece;
      SplitLaws(piece, "");
    } else {
      assert piece + rest == piece + [SLASH] + rest[1..];
      SplitLaws(piece, rest[1..]);
      assert rest == "" + [SLASH] + rest[1..];
      SplitLaws("", rest[1..]);
    }
  }

  lemma OneMore<T>(process: string -> Option<T>, piece: string, rest: seq<string>)
    ensures ProcessAll(process, [piece] + rest) ==
              if process(piece).Some? && ProcessAll(process,
                  rest).Some? then Some([process(piece).value] + ProcessAll(process, rest).value) else None
  {
    assert ([piece] + rest)[0] == piece && ([piece] + rest)[1..] == rest;
  }

  /** Printing canonical tokens and reading the result gives them back. */
  lemma {:induction false} UrlRoundTrip(tokens: seq<Token>)
    requires forall t <- tokens :: Canonical(t)
    ensures Tokens(Print(tokens)) == Some(tokens)
    decreases |tokens|
  {
    if tokens != [] {
      assert tokens[0] in tokens && forall t <- tokens[1..] :: t in tokens;
      UrlRoundTrip(tokens[1..]);
      TokenRoundTrip(tokens[0]);
      SplitPrinted(PrintToken(tokens[0]), Print(tokens[1..]));
      OneMore(ProcessToken, PrintToken(tokens[0]), Split(Print(tokens[1..])));
      assert [tokens[0]] + tokens[1..] == tokens;
    }
  }

  lemma {:induction false} PatternRoundTrip(tokens: seq<PatternToken>)
    requires forall t <- tokens :: CanonicalPattern(t)
    ensures PatternTokens(PrintPattern(tokens)) == Some(tokens)
    decreases |tokens|
  {
    if tokens != [] {
      assert tokens[0] in tokens && forall t <- tokens[1..] :: t in tokens;
      PatternRoundTrip(tokens[1..]);
      PatternTokenRoundTrip(tokens[0]);
      SplitPrinted(PrintPatternToken(tokens[0]), PrintPattern(tokens[1..]));
      OneMore(ProcessPatternToken, PrintPatternToken(tokens[0]), Split(PrintPattern(tokens[1..])));
      assert [tokens[0]] + tokens[1..] == tokens;
    }
  }

  lemma {:induction false} ProcessAllCanonical(pieces: seq<string>)
    requires forall p <- pieces :: p != "" && SLASH !in p
    ensures var r := ProcessAll(ProcessToken, pieces); r.Some? ==> forall t <- r.value :: Canonical(t)
    ensures var r := ProcessAll(ProcessPatternToken, pieces); r.Some? ==> forall t <- r.value :: CanonicalPattern(t)
    decreases |pieces|
  {
    if pieces != [] {
      assert pieces[0] in pieces && forall p <- pieces[1..] :: p in pieces;
      ProcessAllCanonical(pieces[1..]);
    }
  }

  /** Reading produces nothing but canonical tokens, so printing and reading are inverse to each other on them. */
  lemma TokensCanonical(url: string)
    ensures var r := Tokens(url);
            r.Some? ==> (forall t <- r.value :: Canonical(t)) && Tokens(Print(r.value)) == r
    ensures var r := PatternTokens(url);
            r.Some? ==> (forall t <- r.value :: CanonicalPattern(t)) && PatternTokens(PrintPattern(r.value)) == r
  {
    PiecesProper("", url);
    ProcessAllCanonical(Split(url));
    if Tokens(url).Some? {
      UrlRoundTrip(Tokens(url).value);
    }
    if PatternTokens(url).Some? {
      PatternRoundTrip(PatternTokens(url).value);
    }
  }

  // ---------- the loop ----------

  /** IUrl::subdivide with a given processToken. The result is None when processToken throws. */
  method Subdivide<T>(url: string, process: string -> Option<T>) returns (pattern: Option<seq<T>>)
    ensures pattern == ProcessAll(process, Split(url))
  {
    var current := "";
    var tokens := [];
    assert url[0..] == url;
    BothUnit(ProcessAll(process, Split(url)));
    for i := 0 to |url|
      invariant ProcessAll(process, Split(url)) == Both(Some(tokens), ProcessAll(process, Pieces(current, url[i..])))
    {
      assert url[i..][0] == url[i] && url[i..][1..] == url[i + 1..];
      if url[i] == SLASH {
        assert [] + Pieces("", url[i + 1..]) == Pieces("", url[i + 1..]);
        if current != "" {
          OneMore(process, current, Pieces("", url[i + 1..]));
          var token := process(current);
          if token.None? {
            return None;
          }
          NextToken(tokens, token.value, ProcessAll(process, Pieces("", url[i + 1..])));
          tokens := tokens + [token.value];
          current := "";
        }
      } else {
        current := current + [url[i]];
      }
    }
    assert url[|url|..] == "";
    BothUnit(Some(tokens));
    if current != "" {
      OneMore(process, current, []);
      assert Flush(current) == [current] + [];
      var token := process(current);
      if token.None? {
        return None;
      }
      NextToken(tokens, token.value, Some([]));
      tokens := tokens + [token.value];
      BothUnit(Some(tokens));
    }
    pattern := Some(tokens);
  }

  lemma BothUnit<T>(r: Option<seq<T>>)
    ensures Both(Some([]), r) == r && Both(r, Some([])) == r
  {
    if r.Some? {
      assert [] + r.value == r.value && r.value + [] == r.value;
    }
  }

  lemma NextToken<T>(tokens: seq<T>, token: T, rest: Option<seq<T>>)
    ensures Both(Some(tokens), if rest.Some? then Some([token] + rest.value) else None) == Both(Some(tokens +
            [token]), rest)
  {
    if rest.Some? {
      assert tokens + ([token] + rest.value) == tokens + [token] + rest.value;
    }
  }
}
