/** Rewriting `Optional[T]` to `T | None` in printed signatures
    (scripts/generate_api_reference.py, `_normalize_signature_syntax`). */
module OptionalRewrite {
  import opened Wrappers

  const MARKER := "Optional["
  const TAIL := " | None"

  /** `MARKER` stands at the front. */
  predicate HasMarker(s: string) {
    && |s| >= 9
    && s[0] == 'O' && s[1] == 'p' && s[2] == 't' && s[3] == 'i' && s[4] == 'o' && s[5] == 'n' && s[6] == 'a'
    && s[7] == 'l' && s[8] == '['
  }

  predicate HasTyping(s: string) {
    && |s| >= 7
    && s[0] == 't' && s[1] == 'y' && s[2] == 'p' && s[3] == 'i' && s[4] == 'n' && s[5] == 'g' && s[6] == '.'
  }

  // ----- The text the loop computes -----

  /** Where the bracket scan stands. */
  datatype Mode = Mode(depth: nat, quote: Option<char>, escaped: bool)

  function ReadChar(m: Mode, c: char): Mode
    requires m.depth > 0
  {
    if m.quote.Some? then
      if m.escaped then m.(escaped := false)
      else if c == '\\' then m.(escaped := true)
      else if c == m.quote.value then m.(quote := None)
      else m
    else if c == '\'' || c == '"' then m.(quote := Some(c))
    else if c == '[' then m.(depth := m.depth + 1)
    else if c == ']' then m.(depth := m.depth - 1)
    else m
  }

  datatype Scanned = Scanned(read: nat, depth: nat)

  /** Read until the bracket is closed or the text ends. */
  function Scan(s: string, m: Mode): (r: Scanned)
    ensures r.read <= |s|
  {
    if s == "" || m.depth == 0 then Scanned(0, m.depth)
    else
      var rest := Scan(s[1..], ReadChar(m, s[0]));
      Scanned(rest.read + 1, rest.depth)
  }

  lemma {:induction false} ScanEnds(s: string, m: Mode)
    requires m.depth > 0
    ensures var r := Scan(s, m); if r.depth > 0 then r.read == |s| else r.read > 0 && s[r.read - 1] == ']'
  {
    if s != "" && ReadChar(m, s[0]).depth > 0 { ScanEnds(s[1..], ReadChar(m, s[0])); }
  }

  const INSIDE := Mode(1, None, false)

  /** The first marker, or the length of the text. */
  function FindMarker(s: string): (k: nat)
    ensures k <= |s|
    ensures k < |s| ==> k + 9 <= |s| && HasMarker(s[k..])
  {
    if s == "" || HasMarker(s) then 0 else 1 + FindMarker(s[1..])
  }

  /** The text after the loop, from the search position on. */
  function Rewrite(s: string): string
    decreases |s|
  {
    if s == "" then ""
    else if !HasMarker(s) then [s[0]] + Rewrite(s[1..])
    else
      var scanned := Scan(s[9..], INSIDE);
      ScanEnds(s[9..], INSIDE);
      if scanned.depth > 0 then s[..9] + Rewrite(s[9..])
      else s[9..8 + scanned.read] + (TAIL + Rewrite(s[9 + scanned.read..]))
  }

  /** `value.replace("typing.", "")`. */
  function DropTyping(s: string): string
    decreases |s|
  {
    if s == "" then ""
    else if HasTyping(s) then DropTyping(s[7..])
    else [s[0]] + DropTyping(s[1..])
  }

  function Normalize(s: string): string {
    Rewrite(DropTyping(s))
  }

  /** The search position of `value.find(marker, from)`. */
  function Find(value: string, from: nat): (r: Option<nat>)
    requires from <= |value|
    ensures r.None? <==> FindMarker(value[from..]) == |value[from..]|
    ensures r.Some? ==> r.value == from + FindMarker(value[from..]) && r.value + 9 <= |value|
  {
    var k := FindMarker(value[from..]);
    if k == |value| - from then None else Some(from + k)
  }

  method ScanBracket(value: string, from: nat) returns (end: nat, depth: nat)
    requires from <= |value|
    ensures from <= end <= |value|
    ensures Scanned(end - from, depth) == Scan(value[from..], INSIDE)
  {
    depth := 1;
    var quote: Option<char> := None;
    var escaped := false;
    end := from;
    while end < |value| && depth > 0
      invariant from <= end <= |value|
      invariant var rest := Scan(value[end..], Mode(depth, quote, escaped));
                Scanned(end - from + rest.read, rest.depth) == Scan(value[from..], INSIDE)
      decreases |value| - end
    {
      var character := value[end];
      assert value[end..][1..] == value[end + 1..];
      if quote.Some? {
        if escaped {
          escaped := false;
        } else if character == '\\' {
          escaped := true;
        } else if character == quote.value {
          quote := None;
        }
      } else if character == '\'' || character == '"' {
        quote := Some(character);
      } else if character == '[' {
        depth := depth + 1;
      } else if character == ']' {
        depth := depth - 1;
      }
      end := end + 1;
    }
  }

  /** The text after the loop when everything before `from` is done. */
  function Goal(value: string, from: nat): string
    requires from <= |value|
  {
    value[..from] + Rewrite(value[from..])
  }

  lemma Associative(a: string, b: string, c: string)
    ensures a + (b + c) == (a + b) + c
  {
  }

  lemma {:induction false} RewriteFound(s: string)
    ensures Rewrite(s) == s[..FindMarker(s)] + Rewrite(s[FindMarker(s)..])
  {
    if s != "" && !HasMarker(s) {
      RewriteFound(s[1..]);
      var k := FindMarker(s[1..]);
      assert s[1..][k..] == s[k + 1..] && [s[0]] + s[1..][..k] == s[..k + 1];
      Associative([s[0]], s[1..][..k], Rewrite(s[k + 1..]));
    } else {
      assert s[0..] == s;
    }
  }

  lemma Slices(value: string, from: nat, start: nat)
    requires from <= start <= |value|
    ensures value[from..][start - from..] == value[start..]
    ensures value[..from] + value[from..][..start - from] == value[..start]
  {
  }

  /** The text up to the next marker is done. */
  lemma GoalAdvances(value: string, from: nat, start: nat)
    requires from <= |value| && Find(value, from) == Some(start)
    ensures HasMarker(value[start..]) && Goal(value, from) == Goal(value, start)
  {
    RewriteFound(value[from..]);
    Slices(value, from, start);
    Associative(value[..from], value[from..][..start - from], Rewrite(value[start..]));
  }

  lemma RewriteClosed(s: string, read: nat)
    requires HasMarker(s) && Scan(s[9..], INSIDE) == Scanned(read, 0)
    ensures read > 0 && 9 + read <= |s| && s[8 + read] == ']'
    ensures Rewrite(s) == s[9..8 + read] + (TAIL + Rewrite(s[9 + read..]))
  {
    ScanEnds(s[9..], INSIDE);
  }

  /** A closed one is replaced, and the search goes on behind the replacement. */
  lemma GoalReplaces(value: string, start: nat, read: nat)
    requires start <= |value| && HasMarker(value[start..])
    requires Scan(value[start..][9..], INSIDE) == Scanned(read, 0)
    ensures read > 0 && start + 9 + read <= |value|
    ensures var replacement := value[start + 9..start + 8 + read] + TAIL;
            Goal(value, start) == Goal(value[..start] + replacement + value[start + 9 + read..], start + |replacement|)
  {
  }

  lemma GoalReached(value: string, from: nat)
    requires from <= |value| && Find(value, from).None?
    ensures Goal(value, from) == value
  {
    var s := value[from..];
    RewriteFound(s);
    assert s[|s|..] == "" && s[..|s|] == s;
    assert value[..from] + s == value;
  }

  /** One round of the loop at the marker found at `start`: the new text and the new search
      position, which is nearer to the end of the text. */
  method RewriteOne(value: string, start: nat) returns (rewritten: string, searchFrom: nat)
    requires start <= |value| && HasMarker(value[start..])
    ensures searchFrom <= |rewritten| && Goal(rewritten, searchFrom) == Goal(value, start)
    ensures |rewritten| - searchFrom < |value| - start
  {
    var end, depth := ScanBracket(value, start + 9);
    assert value[start..][9..] == value[start + 9..];
    if depth > 0 {
      return value, start + 9;
    }
    GoalReplaces(value, start, end - start - 9);
    var inner := value[start + 9..end - 1];
    var replacement := inner + TAIL;
    rewritten := value[..start] + replacement + value[end..];
    searchFrom := start + |replacement|;
  }

  /** The loop rewrites the text in place; text length minus search position decreases. */
  method NormalizeSignatureSyntax(signature: string) returns (value: string)
    ensures value == Normalize(signature)
  {
    value := DropTyping(signature);
    var searchFrom: nat := 0;
    ghost var goal := Normalize(signature);
    assert value[..0] + Rewrite(value[0..]) == goal by { assert value[0..] == value; }
    var next := Find(value, searchFrom);
    while next.Some?
      invariant searchFrom <= |value|
      invariant next == Find(value, searchFrom)
      invariant Goal(value, searchFrom) == goal
      decreases |value| - searchFrom
    {
      GoalAdvances(value, searchFrom, next.value);
      value, searchFrom := RewriteOne(value, next.value);
      next := Find(value, searchFrom);
    }
    GoalReached(value, searchFrom);
  }

  // ----- Any text: each rewrite removes three characters and no balance -----

  /** How many markers are rewritten. */
  function Rewrites(s: string): nat
    decreases |s|
  {
    if s == "" then 0
    else if !HasMarker(s) then Rewrites(s[1..])
    else
      var scanned := Scan(s[9..], INSIDE);
      if scanned.depth > 0 then Rewrites(s[9..]) else 1 + Rewrites(s[9 + scanned.read..])
  }

  function Weight(c: char): int {
    if c == '[' then 1 else if c == ']' then -1 else 0
  }

  /** Opening minus closing square brackets. */
  function Surplus(s: string): int {
    if s == "" then 0 else Weight(s[0]) + Surplus(s[1..])
  }

  lemma {:induction false} SurplusConcat(a: string, b: string)
    ensures Surplus(a + b) == Surplus(a) + Surplus(b)
  {
    if a == "" {
      assert a + b == b;
    } else {
      assert (a + b)[1..] == a[1..] + b;
      SurplusConcat(a[1..], b);
    }
  }

  lemma {:induction false} NoBracketNoSurplus(s: string)
    requires forall i :: 0 <= i < |s| ==> Weight(s[i]) == 0
    ensures Surplus(s) == 0
  {
    if s != "" { NoBracketNoSurplus(s[1..]); }
  }

  /** The marker and its closing bracket cancel out. */
  lemma SurplusOfMarker(s: string, read: nat)
    requires HasMarker(s) && 0 < read && 9 + read <= |s| && s[8 + read] == ']'
    ensures Surplus(s) == Surplus(s[9..8 + read]) + Surplus(s[9 + read..])
  {
    NoBracketNoSurplus(s[..8]);
    SurplusConcat(s[..8], s[8..]);
    assert s[..8] + s[8..] == s;
    assert s[8..][1..] == s[9..];
    SurplusConcat(s[9..8 + read], s[8 + read..]);
    assert s[9..8 + read] + s[8 + read..] == s[9..];
    assert s[8 + read..][1..] == s[9 + read..];
  }

  /** Whatever the text, every rewrite shortens it by exactly three characters and leaves the
      surplus of opening over closing square brackets as it was. */
  lemma {:induction false} RewriteKeepsSurplus(s: string)
    ensures |Rewrite(s)| == |s| - 3 * Rewrites(s)
    ensures Surplus(Rewrite(s)) == Surplus(s)
    decreases |s|
  {
    if s != "" {
      if !HasMarker(s) {
        RewriteKeepsSurplus(s[1..]);
        assert ([s[0]] + Rewrite(s[1..]))[1..] == Rewrite(s[1..]);
      } else {
        var scanned := Scan(s[9..], INSIDE);
        if scanned.depth > 0 {
          RewriteKeepsSurplus(s[9..]);
          SurplusConcat(s[..9], Rewrite(s[9..]));
          SurplusConcat(s[..9], s[9..]);
          assert s[..9] + s[9..] == s;
        } else {
          ClosedKeepsSurplus(s, scanned.read);
        }
      }
    }
  }

  lemma {:induction false} ClosedKeepsSurplus(s: string, read: nat)
    requires HasMarker(s) && Scan(s[9..], INSIDE) == Scanned(read, 0)
    ensures |Rewrite(s)| == |s| - 3 * Rewrites(s)
    ensures Surplus(Rewrite(s)) == Surplus(s)
    decreases |s|, 0
  {
    RewriteClosed(s, read);
    var inner, after := s[9..8 + read], s[9 + read..];
    RewriteKeepsSurplus(after);
    SurplusOfMarker(s, read);
    NoBracketNoSurplus(TAIL);
    SurplusConcat(TAIL, Rewrite(after));
    SurplusConcat(inner, TAIL + Rewrite(after));
  }

  /** Nothing is rewritten exactly when the text stays as it is. */
  lemma UnchangedIffNoRewrite(s: string)
    ensures Rewrite(s) == s <==> Rewrites(s) == 0
  {
    RewriteKeepsSurplus(s);
    if Rewrites(s) == 0 { NoRewriteKeeps(s); }
  }

  lemma {:induction false} NoRewriteKeeps(s: string)
    requires Rewrites(s) == 0
    ensures Rewrite(s) == s
    decreases |s|
  {
    if s != "" {
      if HasMarker(s) { NoRewriteKeeps(s[9..]); } else { NoRewriteKeeps(s[1..]); }
    }
  }

  // ----- Type expressions -----

  /** A printed type expression: names and punctuation, string literals, bracketed parts, and
      optional types, each followed by the rest of the expression. */
  datatype Expr =
    | End
    | Text(c: char, rest: Expr)
    | Str(quote: char, body: string, rest: Expr)
    | Brackets(inner: Expr, rest: Expr)
    | Opt(inner: Expr, rest: Expr)

  function Print(t: Expr): string {
    match t
    case End => ""
    case Text(c, rest) => [c] + Print(rest)
    case Str(q, body, rest) => [q] + (body + ([q] + Print(rest)))
    case Brackets(inner, rest) => "[" + (Print(inner) + ("]" + Print(rest)))
    case Opt(inner, rest) => MARKER + (Print(inner) + ("]" + Print(rest)))
  }

  /** The printing with each outermost optional type turned into a union. */
  function PrintUnions(t: Expr): string {
    match t
    case End => ""
    case Text(c, rest) => [c] + PrintUnions(rest)
    case Str(q, body, rest) => [q] + (body + ([q] + PrintUnions(rest)))
    case Brackets(inner, rest) => "[" + (PrintUnions(inner) + ("]" + PrintUnions(rest)))
    case Opt(inner, rest) => Print(inner) + (TAIL + PrintUnions(rest))
  }

  /** The body closes at its quote and not before. */
  predicate QuoteClosed(quote: char, body: string) {
    body == "" ||
    (if body[0] == '\\' then |body| >= 2 && QuoteClosed(quote, body[2..])
     else body[0] != quote && QuoteClosed(quote, body[1..]))
  }

  predicate MarkerFree(s: string) {
    forall i :: 0 <= i < |s| ==> !HasMarker(s[i..])
  }

  /** Brackets and quotes stand only where the tree has them, and the marker text only where
      it has an optional type. */
  predicate WellFormed(t: Expr) {
    match t
    case End => true
    case Text(c, rest) => c !in {'[', ']', '\'', '"'} && !HasMarker(Print(t)) && WellFormed(rest)
    case Str(q, body, rest) =>
      (q == '\'' || q == '"') && QuoteClosed(q, body) && MarkerFree(body) && WellFormed(rest)
    case Brackets(inner, rest) => WellFormed(inner) && WellFormed(rest)
    case Opt(inner, rest) => WellFormed(inner) && WellFormed(rest)
  }

  function Plus(n: nat, r: Scanned): Scanned {
    Scanned(n + r.read, r.depth)
  }

  lemma {:induction false} ScanString(q: char, body: string, post: string, d: nat)
    requires d > 0 && (q == '\'' || q == '"') && QuoteClosed(q, body)
    ensures Scan(body + ([q] + post), Mode(d, Some(q), false)) == Plus(|body| + 1, Scan(post, Mode(d, None, false)))
    decreases |body|
  {
    var s := body + ([q] + post);
    if body == "" {
      assert s[1..] == post;
    } else if body[0] == '\\' {
      assert s[1..][1..] == body[2..] + ([q] + post);
      assert s[1..][0] == body[1];
      ScanString(q, body[2..], post, d);
    } else {
      assert s[1..] == body[1..] + ([q] + post);
      ScanString(q, body[1..], post, d);
    }
  }

  /** A text and what follows it, node by node. */
  lemma PrintThen(t: Expr, post: string)
    ensures match t
            case End => Print(t) + post == post
            case Text(c, rest) => Print(t) + post == [c] + (Print(rest) + post)
            case Str(q, body, rest) => Print(t) + post == [q] + (body + ([q] + (Print(rest) + post)))
            case Brackets(inner, rest) => Print(t) + post == "[" + (Print(inner) + ("]" + (Print(rest) + post)))
            case Opt(inner, rest) => Print(t) + post == MARKER + (Print(inner) + ("]" + (Print(rest) + post)))
  {
    match t
    case End =>
    case Text(c, rest) => Associative([c], Print(rest), post);
    case Str(q, body, rest) =>
      Associative([q], Print(rest), post);
      Associative(body, [q] + Print(rest), post);
      Associative([q], body + ([q] + Print(rest)), post);
    case Brackets(inner, rest) =>
      Associative("]", Print(rest), post);
      Associative(Print(inner), "]" + Print(rest), post);
      Associative("[", Print(inner) + ("]" + Print(rest)), post);
    case Opt(inner, rest) =>
      Associative("]", Print(rest), post);
      Associative(Print(inner), "]" + Print(rest), post);
      Associative(MARKER, Print(inner) + ("]" + Print(rest)), post);
  }

  lemma ScanOne(c: char, post: string, m: Mode)
    requires m.depth > 0
    ensures Scan([c] + post, m) == Plus(1, Scan(post, ReadChar(m, c)))
  {
  }

  function Size(t: Expr): (n: nat)
    ensures n > 0
  {
    match t
    case End => 1
    case Text(_, rest) => 1 + Size(rest)
    case Str(_, _, rest) => 1 + Size(rest)
    case Brackets(inner, rest) => 1 + Size(inner) + Size(rest)
    case Opt(inner, rest) => 1 + Size(inner) + Size(rest)
  }

  /** An expression, its closing bracket, and what follows. */
  lemma {:induction false} ScanNested(inner: Expr, rest: Expr, post: string, d: nat)
    requires d > 0 && WellFormed(inner) && WellFormed(rest)
    ensures Scan(Print(inner) + ("]" + (Print(rest) + post)), Mode(d + 1, None, false))
         == Plus(|Print(inner)| + 1 + |Print(rest)|, Scan(post, Mode(d, None, false)))
    decreases Size(inner) + Size(rest), 0
  {
    ScanExpr(inner, "]" + (Print(rest) + post), d + 1);
    ScanOne(']', Print(rest) + post, Mode(d + 1, None, false));
    ScanExpr(rest, post, d);
  }

  lemma {:induction false} ScanBrackets(inner: Expr, rest: Expr, post: string, d: nat)
    requires d > 0 && WellFormed(inner) && WellFormed(rest)
    ensures Scan(Print(Brackets(inner, rest)) + post, Mode(d, None, false))
         == Plus(|Print(Brackets(inner, rest))|, Scan(post, Mode(d, None, false)))
    decreases Size(inner) + Size(rest), 1
  {
    PrintThen(Brackets(inner, rest), post);
    ScanOne('[', Print(inner) + ("]" + (Print(rest) + post)), Mode(d, None, false));
    ScanNested(inner, rest, post, d);
  }

  lemma {:induction false} ScanOpt(inner: Expr, rest: Expr, post: string, d: nat)
    requires d > 0 && WellFormed(inner) && WellFormed(rest)
    ensures Scan(Print(Opt(inner, rest)) + post, Mode(d, None, false))
         == Plus(|Print(Opt(inner, rest))|, Scan(post, Mode(d, None, false)))
    decreases Size(inner) + Size(rest), 1
  {
    PrintThen(Opt(inner, rest), post);
    ScanMarker(Print(inner) + ("]" + (Print(rest) + post)), d);
    ScanNested(inner, rest, post, d);
  }

  lemma {:induction false} ScanStr(q: char, body: string, rest: Expr, post: string, d: nat)
    requires d > 0 && WellFormed(Str(q, body, rest))
    ensures Scan(Print(Str(q, body, rest)) + post, Mode(d, None, false))
         == Plus(|Print(Str(q, body, rest))|, Scan(post, Mode(d, None, false)))
    decreases Size(rest), 1
  {
    PrintThen(Str(q, body, rest), post);
    ScanOne(q, body + ([q] + (Print(rest) + post)), Mode(d, None, false));
    ScanString(q, body, Print(rest) + post, d);
    ScanExpr(rest, post, d);
  }

  /** The scan passes over a whole expression and is where it was. */
  lemma {:induction false} ScanExpr(t: Expr, post: string, d: nat)
    requires d > 0 && WellFormed(t)
    ensures Scan(Print(t) + post, Mode(d, None, false)) == Plus(|Print(t)|, Scan(post, Mode(d, None, false)))
    decreases Size(t), 0
  {
    match t
    case End => assert Print(t) + post == post;
    case Text(c, rest) =>
      Associative([c], Print(rest), post);
      ScanOne(c, Print(rest) + post, Mode(d, None, false));
      ScanExpr(rest, post, d);
    case Str(q, body, rest) => ScanStr(q, body, rest, post, d);
    case Brackets(inner, rest) => ScanBrackets(inner, rest, post, d);
    case Opt(inner, rest) => ScanOpt(inner, rest, post, d);
  }

  lemma ScanMarker(post: string, d: nat)
    requires d > 0
    ensures Scan(MARKER + post, Mode(d, None, false)) == Plus(9, Scan(post, Mode(d + 1, None, false)))
  {
    ScanPlain("Optional", "[" + post, d);
    assert MARKER + post == "Optional" + ("[" + post);
    assert ("[" + post)[1..] == post;
  }

  lemma {:induction false} ScanPlain(s: string, post: string, d: nat)
    requires d > 0 && forall i :: 0 <= i < |s| ==> s[i] !in {'[', ']', '\'', '"'}
    ensures Scan(s + post, Mode(d, None, false)) == Plus(|s|, Scan(post, Mode(d, None, false)))
  {
    if s == "" {
      assert s + post == post;
    } else {
      assert (s + post)[1..] == s[1..] + post;
      ScanPlain(s[1..], post, d);
    }
  }

  /** What follows cannot complete a marker that began earlier. */
  predicate Fenced(post: string) {
    post == "" || post[0] in {']', '\'', '"', ' '}
  }

  lemma NoMarkerAcross(a: string, post: string)
    requires !HasMarker(a) && Fenced(post) && a != ""
    ensures !HasMarker(a + post)
  {
  }

  lemma RewriteChar(c: char, post: string)
    requires !HasMarker([c] + post)
    ensures Rewrite([c] + post) == [c] + Rewrite(post)
  {
  }

  lemma {:induction false} RewriteQuoted(body: string, post: string)
    requires MarkerFree(body) && Fenced(post)
    ensures Rewrite(body + post) == body + Rewrite(post)
  {
    if body == "" {
      assert body + post == post && body + Rewrite(post) == Rewrite(post);
    } else {
      assert body[0..] == body && [body[0]] + body[1..] == body;
      forall i | 0 <= i < |body[1..]| ensures !HasMarker(body[1..][i..]) {
        assert body[1..][i..] == body[i + 1..];
      }
      NoMarkerAcross(body, post);
      RewriteQuoted(body[1..], post);
      Associative([body[0]], body[1..], post);
      RewriteChar(body[0], body[1..] + post);
      Associative([body[0]], body[1..], Rewrite(post));
    }
  }

  lemma RewriteMarked(inner: string, post: string)
    requires Scan(inner + ("]" + post), INSIDE) == Scanned(|inner| + 1, 0)
    ensures Rewrite(MARKER + (inner + ("]" + post))) == inner + (TAIL + Rewrite(post))
  {
    var s := MARKER + (inner + ("]" + post));
    assert s[9..] == inner + ("]" + post);
    MarkedPieces(inner, post);
    RewriteClosed(s, |inner| + 1);
  }

  lemma MarkedPieces(inner: string, post: string)
    ensures var s := MARKER + (inner + ("]" + post));
            HasMarker(s) && |s| == |inner| + |post| + 10 && s[9..9 + |inner|] == inner && s[10 + |inner|..] == post
  {
  }

  lemma {:induction false} RewriteStr(q: char, body: string, rest: Expr, post: string)
    requires WellFormed(Str(q, body, rest))
    requires Rewrite(Print(rest) + post) == PrintUnions(rest) + Rewrite(post)
    ensures Rewrite(Print(Str(q, body, rest)) + post) == PrintUnions(Str(q, body, rest)) + Rewrite(post)
  {
    PrintThen(Str(q, body, rest), post);
    var after := Print(rest) + post;
    RewriteChar(q, body + ([q] + after));
    RewriteQuoted(body, [q] + after);
    RewriteChar(q, after);
    Associative([q], PrintUnions(rest), Rewrite(post));
    Associative(body, [q] + PrintUnions(rest), Rewrite(post));
    Associative([q], body + ([q] + PrintUnions(rest)), Rewrite(post));
  }

  lemma {:induction false} RewriteBrackets(inner: Expr, rest: Expr, post: string)
    requires Rewrite(Print(rest) + post) == PrintUnions(rest) + Rewrite(post)
    requires var after := "]" + (Print(rest) + post); Rewrite(Print(inner) + after) == PrintUnions(inner) + Rewrite(after)
    ensures Rewrite(Print(Brackets(inner, rest)) + post) == PrintUnions(Brackets(inner, rest)) + Rewrite(post)
  {
    PrintThen(Brackets(inner, rest), post);
    RewriteChar('[', Print(inner) + ("]" + (Print(rest) + post)));
    RewriteChar(']', Print(rest) + post);
    Associative("]", PrintUnions(rest), Rewrite(post));
    Associative(PrintUnions(inner), "]" + PrintUnions(rest), Rewrite(post));
    Associative("[", PrintUnions(inner) + ("]" + PrintUnions(rest)), Rewrite(post));
  }

  lemma {:induction false} RewriteOpt(inner: Expr, rest: Expr, post: string)
    requires WellFormed(inner)
    requires Rewrite(Print(rest) + post) == PrintUnions(rest) + Rewrite(post)
    ensures Rewrite(Print(Opt(inner, rest)) + post) == PrintUnions(Opt(inner, rest)) + Rewrite(post)
  {
    PrintThen(Opt(inner, rest), post);
    var after := Print(rest) + post;
    ScanExpr(inner, "]" + after, 1);
    ScanOne(']', after, INSIDE);
    assert Scan(after, Mode(0, None, false)) == Scanned(0, 0);
    RewriteMarked(Print(inner), after);
    Associative(TAIL, PrintUnions(rest), Rewrite(post));
    Associative(Print(inner), TAIL + PrintUnions(rest), Rewrite(post));
  }

  lemma {:induction false} RewriteExpr(t: Expr, post: string)
    requires WellFormed(t) && Fenced(post)
    ensures Rewrite(Print(t) + post) == PrintUnions(t) + Rewrite(post)
  {
    match t
    case End => assert Print(t) + post == post && PrintUnions(t) + Rewrite(post) == Rewrite(post);
    case Text(c, rest) =>
      NoMarkerAcross(Print(t), post);
      Associative([c], Print(rest), post);
      RewriteExpr(rest, post);
      RewriteChar(c, Print(rest) + post);
      Associative([c], PrintUnions(rest), Rewrite(post));
    case Str(q, body, rest) =>
      RewriteExpr(rest, post);
      RewriteStr(q, body, rest, post);
    case Brackets(inner, rest) =>
      RewriteExpr(rest, post);
      RewriteExpr(inner, "]" + (Print(rest) + post));
      RewriteBrackets(inner, rest, post);
    case Opt(inner, rest) =>
      RewriteExpr(rest, post);
      RewriteOpt(inner, rest, post);
  }

  /** On the printed form of a type expression the loop returns the printing with each
      outermost optional type as a union and the inner ones as they were. */
  lemma RewritePrintsUnions(t: Expr)
    requires WellFormed(t)
    ensures Rewrite(Print(t)) == PrintUnions(t)
  {
    RewriteExpr(t, "");
    assert Print(t) + "" == Print(t) && PrintUnions(t) + Rewrite("") == PrintUnions(t);
  }

  /** A plain text before an expression. */
  function TextOf(s: string, rest: Expr): Expr {
    if s == "" then rest else Text(s[0], TextOf(s[1..], rest))
  }

  lemma {:induction false} PrintTextOf(s: string, rest: Expr)
    ensures Print(TextOf(s, rest)) == s + Print(rest)
    ensures PrintUnions(TextOf(s, rest)) == s + PrintUnions(rest)
  {
    if s == "" {
      assert s + Print(rest) == Print(rest) && s + PrintUnions(rest) == PrintUnions(rest);
    } else {
      PrintTextOf(s[1..], rest);
      Associative([s[0]], s[1..], Print(rest));
      Associative([s[0]], s[1..], PrintUnions(rest));
      assert [s[0]] + s[1..] == s;
    }
  }

  /** A text in which no marker can start. */
  predicate Harmless(s: string) {
    forall i :: 0 <= i < |s| ==> s[i] !in {'O', '[', ']', '\'', '"'}
  }

  lemma {:induction false} HarmlessText(s: string, rest: Expr)
    requires Harmless(s) && WellFormed(rest)
    ensures WellFormed(TextOf(s, rest))
  {
    if s != "" {
      HarmlessText(s[1..], rest);
      assert Print(TextOf(s, rest))[0] == s[0];
    }
  }

  /** A longer name that ends in the marker's word is rewritten like the marker, whatever it
      starts with. */
  lemma LongerNameIsRewrittenToo(prefix: string, inner: Expr)
    requires Harmless(prefix) && WellFormed(inner)
    ensures Rewrite(prefix + Print(Opt(inner, End))) == prefix + PrintUnions(Opt(inner, End))
  {
    HarmlessText(prefix, Opt(inner, End));
    PrintTextOf(prefix, Opt(inner, End));
    RewritePrintsUnions(TextOf(prefix, Opt(inner, End)));
  }

  // ----- Repeating the rewrite -----

  function Append(a: Expr, b: Expr): Expr {
    match a
    case End => b
    case Text(c, rest) => Text(c, Append(rest, b))
    case Str(q, body, rest) => Str(q, body, Append(rest, b))
    case Brackets(inner, rest) => Brackets(inner, Append(rest, b))
    case Opt(inner, rest) => Opt(inner, Append(rest, b))
  }

  function TailThen(rest: Expr): Expr {
    TextOf(TAIL, rest)
  }

  /** The expression whose printing has the outermost optional types as unions. */
  function Peel(t: Expr): Expr {
    match t
    case End => End
    case Text(c, rest) => Text(c, Peel(rest))
    case Str(q, body, rest) => Str(q, body, Peel(rest))
    case Brackets(inner, rest) => Brackets(Peel(inner), Peel(rest))
    case Opt(inner, rest) => Append(inner, TailThen(Peel(rest)))
  }

  function Larger(m: nat, n: nat): nat {
    if m < n then n else m
  }

  /** How deep optional types are nested in each other. */
  function OptDepth(t: Expr): nat {
    match t
    case End => 0
    case Text(_, rest) => OptDepth(rest)
    case Str(_, _, rest) => OptDepth(rest)
    case Brackets(inner, rest) => Larger(OptDepth(inner), OptDepth(rest))
    case Opt(inner, rest) => Larger(1 + OptDepth(inner), OptDepth(rest))
  }

  /** No name runs into an optional type. */
  predicate Separated(t: Expr) {
    match t
    case End => true
    case Text(c, rest) => (rest.Opt? ==> c !in {'O', 'p', 't', 'i', 'o', 'n', 'a', 'l'}) && Separated(rest)
    case Str(_, _, rest) => Separated(rest)
    case Brackets(inner, rest) => Separated(inner) && Separated(rest)
    case Opt(inner, rest) => Separated(inner) && Separated(rest)
  }

  lemma {:induction false} PrintAppend(a: Expr, b: Expr)
    ensures Print(Append(a, b)) == Print(a) + Print(b)
  {
    PrintThen(a, Print(b));
    match a
    case End =>
    case Text(_, rest) => PrintAppend(rest, b);
    case Str(_, _, rest) => PrintAppend(rest, b);
    case Brackets(_, rest) => PrintAppend(rest, b);
    case Opt(_, rest) => PrintAppend(rest, b);
  }

  lemma {:induction false} PrintPeel(t: Expr)
    ensures Print(Peel(t)) == PrintUnions(t)
  {
    match t
    case End =>
    case Text(_, rest) => PrintPeel(rest);
    case Str(_, _, rest) => PrintPeel(rest);
    case Brackets(inner, rest) =>
      PrintPeel(inner);
      PrintPeel(rest);
    case Opt(inner, rest) =>
      PrintPeel(rest);
      PrintTextOf(TAIL, Peel(rest));
      PrintAppend(inner, TailThen(Peel(rest)));
  }

  /** The text goes on with the marker from its character `k`. */
  predicate Matches(s: string, k: nat)
    requires k <= 9
    decreases 9 - k
  {
    k == 9 || (s != "" && s[0] == MARKER[k] && Matches(s[1..], k + 1))
  }

  lemma MarkerMatches(s: string)
    ensures HasMarker(s) <==> Matches(s, 0)
  {
  }

  /** The rewrite completes no marker: up to the next bracket or quote both texts agree. */
  lemma {:induction false} UnionsMakeNoMarker(t: Expr, k: nat)
    requires WellFormed(t) && Separated(t) && !t.Opt? && k < 9 && Matches(PrintUnions(t), k)
    ensures Matches(Print(t), k)
  {
    match t
    case Text(c, rest) =>
      assert PrintUnions(t)[1..] == PrintUnions(rest) && Print(t)[1..] == Print(rest);
      assert k < 8;
      UnionsMakeNoMarker(rest, k + 1);
    case Brackets(_, _) => assert k == 8;
    case _ =>
  }

  lemma {:induction false} AppendKeepsForm(a: Expr, b: Expr)
    requires WellFormed(a) && WellFormed(b) && Fenced(Print(b)) && !b.Opt?
    ensures WellFormed(Append(a, b))
    ensures Separated(a) && Separated(b) ==> Separated(Append(a, b))
    ensures OptDepth(Append(a, b)) == Larger(OptDepth(a), OptDepth(b))
  {
    match a
    case End =>
    case Text(c, rest) =>
      AppendKeepsForm(rest, b);
      PrintAppend(a, b);
      NoMarkerAcross(Print(a), Print(b));
    case Str(_, _, rest) => AppendKeepsForm(rest, b);
    case Brackets(_, rest) => AppendKeepsForm(rest, b);
    case Opt(_, rest) => AppendKeepsForm(rest, b);
  }

  lemma {:induction false} TextKeepsForm(s: string, rest: Expr)
    requires Separated(rest) && s != "" && s[|s| - 1] !in {'O', 'p', 't', 'i', 'o', 'n', 'a', 'l'}
    ensures Separated(TextOf(s, rest)) && OptDepth(TextOf(s, rest)) == OptDepth(rest)
  {
    if |s| > 1 {
      TextKeepsForm(s[1..], rest);
    } else {
      assert TextOf(s[1..], rest) == rest;
    }
  }

  lemma TailKeepsForm(rest: Expr)
    requires WellFormed(rest) && Separated(rest)
    ensures WellFormed(TailThen(rest)) && Fenced(Print(TailThen(rest))) && !TailThen(rest).Opt?
    ensures Separated(TailThen(rest)) && OptDepth(TailThen(rest)) == OptDepth(rest)
  {
    HarmlessText(TAIL, rest);
    PrintTextOf(TAIL, rest);
    TextKeepsForm(TAIL, rest);
  }

  /** The result of a rewrite is a printed expression again, one level shallower. */
  lemma {:induction false} PeelKeepsForm(t: Expr)
    requires WellFormed(t) && Separated(t)
    ensures WellFormed(Peel(t)) && Separated(Peel(t))
    ensures OptDepth(Peel(t)) == if OptDepth(t) == 0 then 0 else OptDepth(t) - 1
  {
    match t
    case End =>
    case Text(c, rest) =>
      PeelKeepsForm(rest);
      PrintPeel(t);
      MarkerMatches(Print(t));
      MarkerMatches(PrintUnions(t));
      if HasMarker(PrintUnions(t)) { UnionsMakeNoMarker(t, 0); }
    case Str(_, _, rest) => PeelKeepsForm(rest);
    case Brackets(inner, rest) =>
      PeelKeepsForm(inner);
      PeelKeepsForm(rest);
    case Opt(inner, rest) =>
      PeelKeepsForm(rest);
      TailKeepsForm(Peel(rest));
      AppendKeepsForm(inner, TailThen(Peel(rest)));
  }

  /** The text after `n` rewrites. */
  function Passes(s: string, n: nat): string {
    if n == 0 then s else Rewrite(Passes(s, n - 1))
  }

  function Peeled(t: Expr, n: nat): Expr {
    if n == 0 then t else Peel(Peeled(t, n - 1))
  }

  lemma {:induction false} PassesPeel(t: Expr, n: nat)
    requires WellFormed(t) && Separated(t)
    ensures WellFormed(Peeled(t, n)) && Separated(Peeled(t, n)) && Passes(Print(t), n) == Print(Peeled(t, n))
    ensures OptDepth(Peeled(t, n)) == if OptDepth(t) <= n then 0 else OptDepth(t) - n
  {
    if n > 0 {
      PassesPeel(t, n - 1);
      PeelKeepsForm(Peeled(t, n - 1));
      RewritePrintsUnions(Peeled(t, n - 1));
      PrintPeel(Peeled(t, n - 1));
    }
  }

  /** A rewrite changes the text exactly when there is an optional type to rewrite. */
  lemma {:induction false} UnionsShorten(t: Expr)
    ensures |PrintUnions(t)| <= |Print(t)|
    ensures OptDepth(t) == 0 ==> PrintUnions(t) == Print(t)
    ensures OptDepth(t) > 0 ==> |PrintUnions(t)| < |Print(t)|
  {
    match t
    case End =>
    case Text(_, rest) => UnionsShorten(rest);
    case Str(_, _, rest) => UnionsShorten(rest);
    case Brackets(inner, rest) =>
      UnionsShorten(inner);
      UnionsShorten(rest);
    case Opt(inner, rest) => UnionsShorten(rest);
  }

  /** Repeating the rewrite reaches a fixed text after exactly as many passes as optional
      types are nested in each other; so one pass is final only up to one level. */
  lemma FixedAfterDepth(t: Expr, n: nat)
    requires WellFormed(t) && Separated(t)
    ensures Passes(Print(t), n + 1) == Passes(Print(t), n) <==> OptDepth(t) <= n
  {
    PassesPeel(t, n);
    RewritePrintsUnions(Peeled(t, n));
    UnionsShorten(Peeled(t, n));
  }

  lemma IdempotentUpToOneLevel(t: Expr)
    requires WellFormed(t) && Separated(t)
    ensures Rewrite(Rewrite(Print(t))) == Rewrite(Print(t)) <==> OptDepth(t) <= 1
  {
    FixedAfterDepth(t, 1);
    assert Passes(Print(t), 1) == Rewrite(Passes(Print(t), 0));
    assert Passes(Print(t), 2) == Rewrite(Passes(Print(t), 1));
  }

  // ----- The whole normalization -----

  lemma {:induction false} DropTypingKeepsSurplus(s: string)
    ensures Surplus(DropTyping(s)) == Surplus(s)
    decreases |s|
  {
    if s != "" {
      if HasTyping(s) {
        DropTypingKeepsSurplus(s[7..]);
        NoBracketNoSurplus(s[..7]);
        SurplusConcat(s[..7], s[7..]);
        assert s[..7] + s[7..] == s;
      } else {
        DropTypingKeepsSurplus(s[1..]);
        assert ([s[0]] + DropTyping(s[1..]))[1..] == DropTyping(s[1..]);
      }
    }
  }

  predicate TypingFree(s: string) {
    forall i :: 0 <= i < |s| ==> !HasTyping(s[i..])
  }

  lemma {:induction false} DropTypingShortens(s: string)
    ensures |DropTyping(s)| <= |s|
    decreases |s|
  {
    if s != "" {
      if HasTyping(s) { DropTypingShortens(s[7..]); } else { DropTypingShortens(s[1..]); }
    }
  }

  /** The prefix is dropped wherever it stands: a text stays as it is exactly when it does
      not contain it. */
  lemma {:induction false} TypingFreeIsKept(s: string)
    ensures DropTyping(s) == s <==> TypingFree(s)
    decreases |s|
  {
    if s != "" {
      assert s[0..] == s;
      if HasTyping(s) {
        DropTypingShortens(s[7..]);
      } else {
        TypingFreeIsKept(s[1..]);
        assert forall i :: 0 <= i < |s| - 1 ==> s[1..][i..] == s[i + 1..];
        if TypingFree(s) {
          forall i | 0 <= i < |s[1..]| ensures !HasTyping(s[1..][i..]) {
            assert !HasTyping(s[i + 1..]);
          }
        }
        if TypingFree(s[1..]) {
          forall i | 0 <= i < |s| ensures !HasTyping(s[i..]) {
            if i > 0 { assert !HasTyping(s[1..][i - 1..]); }
          }
        }
        assert ([s[0]] + DropTyping(s[1..]))[1..] == DropTyping(s[1..]) && [s[0]] + s[1..] == s;
      }
    }
  }

  /** Normalizing any text keeps its bracket surplus. */
  lemma NormalizeKeepsSurplus(s: string)
    ensures Surplus(Normalize(s)) == Surplus(s)
  {
    DropTypingKeepsSurplus(s);
    RewriteKeepsSurplus(DropTyping(s));
  }

  const PREFIX := "typing."

  /** The text with the module prefix written before each marked character. */
  function Qualify(s: string, at: seq<bool>): string
    requires |at| == |s|
  {
    if s == "" then ""
    else (if at[0] then PREFIX else "") + ([s[0]] + Qualify(s[1..], at[1..]))
  }

  /** The text goes on with the prefix from its character `k`. */
  predicate PrefixFrom(s: string, k: nat)
    requires k <= 7
    decreases 7 - k
  {
    k == 7 || (s != "" && s[0] == PREFIX[k] && PrefixFrom(s[1..], k + 1))
  }

  lemma PrefixStands(s: string)
    ensures HasTyping(s) <==> PrefixFrom(s, 0)
  {
  }

  /** A prefix that has begun in the text itself does not run into one that was written in,
      because it repeats its first character nowhere. */
  lemma {:induction false} NoPrefixIsMade(s: string, at: seq<bool>, k: nat)
    requires |at| == |s| && k <= 7 && PrefixFrom(Qualify(s, at), k) && (k == 0 ==> s != "" && !at[0])
    ensures PrefixFrom(s, k)
    decreases |s|
  {
    if k < 7 && s != "" {
      var q := Qualify(s, at);
      if at[0] {
      } else {
        assert q == [s[0]] + Qualify(s[1..], at[1..]);
        assert q[1..] == Qualify(s[1..], at[1..]);
        NoPrefixIsMade(s[1..], at[1..], k + 1);
      }
    }
  }

  lemma NothingWritten(s: string)
    ensures "" + s == s
  {
  }

  /** Dropping the module prefix undoes writing it anywhere into a text that has none. */
  lemma {:induction false} DropTypingUndoesQualify(s: string, at: seq<bool>)
    requires |at| == |s| && TypingFree(s)
    ensures DropTyping(Qualify(s, at)) == s
    decreases |s|
  {
    if s != "" {
      var rest := Qualify(s[1..], at[1..]);
      DropTypingUndoesQualify(s[1..], at[1..]);
      UnmarkedIsKept(s, at);
      assert [s[0]] + s[1..] == s;
      if at[0] { } else { NothingWritten([s[0]] + rest); }
    }
  }

  lemma UnmarkedIsKept(s: string, at: seq<bool>)
    requires |at| == |s| && s != "" && TypingFree(s)
    ensures var rest := Qualify(s[1..], at[1..]); DropTyping([s[0]] + rest) == [s[0]] + DropTyping(rest)
  {
    var unmarked := [false] + at[1..];
    var rest := Qualify(s[1..], at[1..]);
    assert unmarked[1..] == at[1..];
    assert Qualify(s, unmarked) == [s[0]] + rest;
    PrefixStands([s[0]] + rest);
    PrefixStands(s);
    assert s[0..] == s;
    if HasTyping([s[0]] + rest) { NoPrefixIsMade(s, unmarked, 0); }
    assert ([s[0]] + rest)[1..] == rest;
  }

  /** The whole normalization, on the printing of a type expression in which any names are
      qualified with their module. */
  lemma NormalizePrintsUnions(t: Expr, at: seq<bool>)
    requires WellFormed(t) && TypingFree(Print(t)) && |at| == |Print(t)|
    ensures Normalize(Qualify(Print(t), at)) == PrintUnions(t)
  {
    DropTypingUndoesQualify(Print(t), at);
    RewritePrintsUnions(t);
  }

  // ----- Whose name is rewritten -----

  /** A character that continues a name. */
  predicate IsName(c: char) {
    'a' <= c <= 'z' || 'A' <= c <= 'Z' || '0' <= c <= '9' || c == '_' || c >= '\U{0080}'
  }

  /** Where the loop rewrites a marker, counted from `from`. */
  function RewrittenAt(s: string, from: nat): set<nat>
    decreases |s|
  {
    if s == "" then {}
    else if !HasMarker(s) then RewrittenAt(s[1..], from + 1)
    else
      var scanned := Scan(s[9..], INSIDE);
      if scanned.depth > 0 then RewrittenAt(s[9..], from + 9)
      else {from} + RewrittenAt(s[9 + scanned.read..], from + 9 + scanned.read)
  }

  predicate NameBefore(s: string, p: nat)
    requires p <= |s|
  {
    p > 0 && IsName(s[p - 1])
  }

  /** Every marker that is rewritten is a whole name. */
  predicate WholeNames(s: string) {
    forall p :: p in RewrittenAt(s, 0) ==> p <= |s| && !NameBefore(s, p)
  }

  /** The same, with `before` telling whether a name character comes before the text. */
  predicate WholeFrom(s: string, before: bool)
    decreases |s|
  {
    if s == "" then true
    else if !HasMarker(s) then WholeFrom(s[1..], IsName(s[0]))
    else
      var scanned := Scan(s[9..], INSIDE);
      if scanned.depth > 0 then WholeFrom(s[9..], false)
      else !before && WholeFrom(s[9 + scanned.read..], false)
  }

  lemma {:induction false} RewrittenBehind(s: string, from: nat)
    ensures forall p :: p in RewrittenAt(s, from) ==> from <= p < from + |s|
    decreases |s|
  {
    if s != "" {
      if !HasMarker(s) {
        RewrittenBehind(s[1..], from + 1);
      } else {
        var scanned := Scan(s[9..], INSIDE);
        if scanned.depth > 0 { RewrittenBehind(s[9..], from + 9); }
        else { RewrittenBehind(s[9 + scanned.read..], from + 9 + scanned.read); }
      }
    }
  }

  predicate WholeBehind(s: string, k: nat)
    requires k <= |s|
  {
    forall p :: p in RewrittenAt(s[k..], k) ==> p <= |s| && !NameBefore(s, p)
  }

  lemma {:induction false} WholeBehindIff(s: string, k: nat)
    requires k <= |s|
    ensures WholeBehind(s, k) <==> WholeFrom(s[k..], NameBefore(s, k))
    decreases |s| - k
  {
    var t := s[k..];
    if t != "" {
      if !HasMarker(t) {
        WholeBehindIff(s, k + 1);
        WholeBehindSkip(s, k, 1);
      } else {
        var scanned := Scan(t[9..], INSIDE);
        if scanned.depth > 0 {
          assert s[k + 8] == t[8] == '[';
          WholeBehindIff(s, k + 9);
          WholeBehindSkip(s, k, 9);
        } else {
          ScanEnds(t[9..], INSIDE);
          WholeBehindIff(s, k + 9 + scanned.read);
          WholeBehindMarker(s, k, scanned.read);
        }
      }
    }
  }

  /** A character, or an unclosed marker, that is stepped over. */
  lemma WholeBehindSkip(s: string, k: nat, n: nat)
    requires k < |s| && k + n <= |s|
    requires if HasMarker(s[k..]) then n == 9 && Scan(s[k..][9..], INSIDE).depth > 0 else n == 1
    ensures WholeBehind(s, k) <==> WholeBehind(s, k + n)
    ensures WholeFrom(s[k..], NameBefore(s, k)) == WholeFrom(s[k + n..], n == 1 && IsName(s[k]))
  {
    assert s[k..][n..] == s[k + n..];
    assert RewrittenAt(s[k..], k) == RewrittenAt(s[k + n..], k + n);
  }

  lemma WholeBehindMarker(s: string, k: nat, read: nat)
    requires k < |s| && HasMarker(s[k..]) && Scan(s[k..][9..], INSIDE) == Scanned(read, 0)
    requires read > 0 && k + 9 + read <= |s| && s[k..][9..][read - 1] == ']'
    ensures WholeBehind(s, k) <==> !NameBefore(s, k) && WholeBehind(s, k + 9 + read)
    ensures !NameBefore(s, k + 9 + read)
    ensures WholeFrom(s[k..], NameBefore(s, k)) <==> !NameBefore(s, k) && WholeFrom(s[k + 9 + read..], false)
  {
    var t, next := s[k..], k + 9 + read;
    assert t[9 + read..] == s[next..];
    assert s[next - 1] == ']';
    assert RewrittenAt(t, k) == {k} + RewrittenAt(s[next..], next);
  }

  /** No name character stands directly before an outermost optional type. */
  predicate Unglued(t: Expr, before: bool) {
    match t
    case End => true
    case Text(c, rest) => Unglued(rest, IsName(c))
    case Str(_, _, rest) => Unglued(rest, false)
    case Brackets(inner, rest) => Unglued(inner, false) && Unglued(rest, false)
    case Opt(_, rest) => !before && Unglued(rest, false)
  }

  lemma {:induction false} WholeQuoted(body: string, q: char, post: string, b: bool)
    requires MarkerFree(body) && (q == '\'' || q == '"')
    ensures WholeFrom(body + ([q] + post), b) == WholeFrom(post, false)
    decreases |body|
  {
    if body == "" {
      assert body + ([q] + post) == [q] + post;
    } else {
      assert body[0..] == body && [body[0]] + body[1..] == body;
      forall i | 0 <= i < |body[1..]| ensures !HasMarker(body[1..][i..]) {
        assert body[1..][i..] == body[i + 1..];
      }
      NoMarkerAcross(body, [q] + post);
      Associative([body[0]], body[1..], [q] + post);
      WholeQuoted(body[1..], q, post, IsName(body[0]));
    }
  }

  lemma WholeMarked(inner: string, post: string, b: bool)
    requires Scan(inner + ("]" + post), INSIDE) == Scanned(|inner| + 1, 0)
    ensures WholeFrom(MARKER + (inner + ("]" + post)), b) <==> !b && WholeFrom(post, false)
  {
    var s := MARKER + (inner + ("]" + post));
    assert s[9..] == inner + ("]" + post);
    MarkedPieces(inner, post);
  }

  lemma {:induction false} WholeExpr(t: Expr, post: string, b: bool)
    requires WellFormed(t) && Fenced(post)
    ensures WholeFrom(Print(t) + post, b) <==> Unglued(t, b) && WholeFrom(post, false)
  {
    PrintThen(t, post);
    match t
    case End => 
    case Text(c, rest) =>
      NoMarkerAcross(Print(t), post);
      WholeExpr(rest, post, IsName(c));
    case Str(q, body, rest) =>
      WholeQuoted(body, q, Print(rest) + post, IsName(q));
      WholeExpr(rest, post, false);
    case Brackets(inner, rest) =>
      WholeExpr(rest, post, false);
      WholeExpr(inner, "]" + (Print(rest) + post), false);
    case Opt(inner, rest) =>
      WholeExpr(rest, post, false);
      WholeOpt(inner, Print(rest) + post, b);
  }

  lemma WholeOpt(inner: Expr, after: string, b: bool)
    requires WellFormed(inner)
    ensures WholeFrom(MARKER + (Print(inner) + ("]" + after)), b) <==> !b && WholeFrom(after, false)
  {
    ScanExpr(inner, "]" + after, 1);
    ScanOne(']', after, INSIDE);
    assert Scan(after, Mode(0, None, false)) == Scanned(0, 0);
    WholeMarked(Print(inner), after, b);
  }

  /** Every marker that is rewritten in a printed expression is a whole name if and only if no
      name runs into an outermost optional type. */
  lemma RewrittenNamesAreWholeIff(t: Expr)
    requires WellFormed(t)
    ensures WholeNames(Print(t)) <==> Unglued(t, false)
  {
    var s := Print(t);
    assert s[0..] == s && s + "" == s;
    RewrittenBehind(s, 0);
    WholeBehindIff(s, 0);
    WholeExpr(t, "", false);
  }
}
