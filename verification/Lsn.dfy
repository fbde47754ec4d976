/** Log positions written as two hexadecimal numbers
    (scripts/postgres_failover_probe.py, `_lsn_to_int` and `_require_safe_promotion`). */
module Lsn {
  import opened Wrappers

  const SEGMENT: nat := 0x1_0000_0000

  function DigitChar(d: nat): char
    requires d < 16
  {
    "0123456789ABCDEF"[d]
  }

  function DigitValue(c: char): Option<nat> {
    if '0' <= c <= '9' then Some((c - '0') as nat)
    else if 'a' <= c <= 'f' then Some((c - 'a') as nat + 10)
    else if 'A' <= c <= 'F' then Some((c - 'A') as nat + 10)
    else None
  }

  /** The digits, in either case. */
  lemma DigitIff(c: char, d: nat)
    ensures DigitValue(c) == Some(d) <==> d < 16 && (c == "0123456789ABCDEF"[d] || c == "0123456789abcdef"[d])
  {
  }

  predicate IsBlank(c: char) {
    c == ' ' || c == '\t' || c == '\n' || c == '\r' || c == '\U{000B}' || c == '\U{000C}'
  }

  function DropBlanks(s: string): string {
    if s != "" && IsBlank(s[0]) then DropBlanks(s[1..]) else s
  }

  function DropTrailingBlanks(s: string): string {
    if s != "" && IsBlank(s[|s| - 1]) then DropTrailingBlanks(s[..|s| - 1]) else s
  }

  /** Digits with single underscores between them; `open` says a digit has just been read. */
  function Digits(s: string, acc: nat, open: bool): Option<nat> {
    if s == "" then (if open then Some(acc) else None)
    else if s[0] == '_' then (if open then Digits(s[1..], acc, false) else None)
    else
      match DigitValue(s[0])
      case None => None
      case Some(d) => Digits(s[1..], 16 * acc + d, true)
  }

  function Unprefixed(s: string): Option<nat> {
    if |s| >= 2 && s[0] == '0' && (s[1] == 'x' || s[1] == 'X') then
      Digits(if |s| >= 3 && s[2] == '_' then s[3..] else s[2..], 0, false)
    else Digits(s, 0, false)
  }

  function Signed(negative: bool, magnitude: Option<nat>): Option<int> {
    match magnitude
    case None => None
    case Some(n) => Some(if negative then 0 - n else n)
  }

  /** `int(text, 16)` on ASCII text. */
  function ParseHex(text: string): Option<int> {
    var s := DropTrailingBlanks(DropBlanks(text));
    if s != "" && (s[0] == '+' || s[0] == '-') then
      Signed(s[0] == '-', Unprefixed(s[1..]))
    else
      Signed(false, Unprefixed(s))
  }

  /** The index of the first slash, or the length. */
  function FirstSlash(s: string): (k: nat)
    ensures k <= |s|
    ensures k < |s| ==> s[k] == '/'
    ensures forall i :: 0 <= i < k ==> s[i] != '/'
  {
    if s == "" || s[0] == '/' then 0 else 1 + FirstSlash(s[1..])
  }

  const INVALID := "invalid PostgreSQL LSN"

  function LsnToInt(lsn: string): Result<int, string> {
    var k := FirstSlash(lsn);
    if k == |lsn| then Err(INVALID)
    else
      match (ParseHex(lsn[..k]), ParseHex(lsn[k + 1..]))
      case (Some(high), Some(low)) => Ok(high * SEGMENT + low)
      case _ => Err(INVALID)
  }

  // ----- Printing, as the database does -----

  function Hex(n: nat): (s: string)
    ensures s != "" && AllDigits(s)
  {
    if n < 16 then [DigitChar(n)] else Hex(n / 16) + [DigitChar(n % 16)]
  }

  function Print(high: nat, low: nat): string {
    Hex(high) + "/" + Hex(low)
  }

  /** The text of a position in the log. */
  function Position(n: nat): string {
    Print(n / SEGMENT, n % SEGMENT)
  }

  predicate AllDigits(s: string) {
    forall i :: 0 <= i < |s| ==> DigitValue(s[i]).Some?
  }

  function Value(s: string, acc: nat): nat
    requires AllDigits(s)
  {
    if s == "" then acc else Value(s[1..], 16 * acc + DigitValue(s[0]).value)
  }

  lemma {:induction false} DigitsAreRead(s: string, acc: nat)
    requires AllDigits(s)
    ensures Digits(s, acc, true) == Some(Value(s, acc))
    ensures s != "" ==> Digits(s, acc, false) == Some(Value(s, acc))
  {
    if s != "" {
      assert s[0] != '_' by { assert DigitValue(s[0]).Some?; }
      DigitsAreRead(s[1..], 16 * acc + DigitValue(s[0]).value);
    }
  }

  lemma {:induction false} ValueConcat(s: string, c: char, acc: nat)
    requires AllDigits(s) && DigitValue(c).Some?
    ensures AllDigits(s + [c]) && Value(s + [c], acc) == 16 * Value(s, acc) + DigitValue(c).value
  {
    if s == "" {
      assert s + [c] == [c] && [c][1..] == "";
    } else {
      assert (s + [c])[0] == s[0] && (s + [c])[1..] == s[1..] + [c];
      ValueConcat(s[1..], c, 16 * acc + DigitValue(s[0]).value);
    }
  }

  lemma DigitRoundTrip(d: nat)
    requires d < 16
    ensures DigitValue(DigitChar(d)) == Some(d)
  {
  }

  lemma {:induction false} HexValue(n: nat)
    ensures AllDigits(Hex(n)) && Value(Hex(n), 0) == n
  {
    DigitRoundTrip(n % 16);
    if n < 16 {
      assert Value(Hex(n), 0) == Value(Hex(n)[1..], n) && Hex(n)[1..] == "";
    } else {
      HexValue(n / 16);
      ValueConcat(Hex(n / 16), DigitChar(n % 16), 0);
    }
  }

  /** Digits alone carry no blank, sign, prefix or underscore. */
  lemma PlainDigits(s: string)
    requires AllDigits(s) && s != ""
    ensures ParseHex(s) == Some(Value(s, 0))
  {
    assert DigitValue(s[0]).Some? && DigitValue(s[|s| - 1]).Some?;
    assert |s| >= 2 ==> DigitValue(s[1]).Some?;
    assert DropTrailingBlanks(DropBlanks(s)) == s;
    DigitsAreRead(s, 0);
  }

  lemma HexParses(n: nat)
    ensures ParseHex(Hex(n)) == Some(n)
  {
    HexValue(n);
    PlainDigits(Hex(n));
  }

  lemma {:induction false} FirstSlashOf(a: string, b: string)
    requires AllDigits(a)
    ensures FirstSlash(a + "/" + b) == |a|
  {
    var s := a + "/" + b;
    if a == "" {
      assert s[0] == '/';
    } else {
      assert DigitValue(s[0]) == DigitValue(a[0]);
      assert s[1..] == a[1..] + "/" + b;
      FirstSlashOf(a[1..], b);
    }
  }

  // ----- What the parser accepts -----

  /** The spellings of one number: blanks, a sign, a prefix, digits of either case with single
      underscores between them, and blanks. */
  datatype Spelling = Spelling(before: string, sign: string, prefix: string, digits: string, after: string)
  {
    function Text(): string {
      before + Core() + after
    }

    function Core(): string {
      sign + (prefix + digits)
    }

    predicate Valid() {
      && Blank(before) && Blank(after)
      && (sign == "" || sign == "+" || sign == "-")
      && (prefix == "" || prefix == "0x" || prefix == "0X" || prefix == "0x_" || prefix == "0X_")
      && Grouped(digits, false)
    }

    function Number(): int
      requires Valid()
    {
      if sign == "-" then 0 - Value(Plain(digits), 0) else Value(Plain(digits), 0)
    }
  }

  predicate Blank(s: string) {
    forall i :: 0 <= i < |s| ==> IsBlank(s[i])
  }

  predicate GroupChars(s: string) {
    forall i :: 0 <= i < |s| ==> s[i] == '_' || DigitValue(s[i]).Some?
  }

  /** Digits with single underscores between them, after a digit if `open`. */
  predicate Grouped(s: string, open: bool) {
    && GroupChars(s)
    && (s == "" ==> open)
    && (s != "" ==> s[|s| - 1] != '_' && (!open ==> s[0] != '_'))
    && (forall i :: 0 <= i < |s| - 1 ==> s[i] != '_' || s[i + 1] != '_')
  }

  function Plain(s: string): (r: string)
    ensures GroupChars(s) ==> AllDigits(r)
  {
    if s == "" then ""
    else
      assert GroupChars(s) ==> GroupChars(s[1..]);
      if s[0] == '_' then Plain(s[1..]) else [s[0]] + Plain(s[1..])
  }

  lemma GroupedTail(s: string, open: bool)
    requires s != "" && (s[0] == '_' || DigitValue(s[0]).Some?)
    ensures Grouped(s, open) <==> (s[0] == '_' ==> open) && Grouped(s[1..], s[0] != '_')
  {
    var t := s[1..];
    if Grouped(s, open) {
      assert |s| > 1 ==> t[|t| - 1] == s[|s| - 1] && t[0] == s[1];
      forall i | 0 <= i < |t| - 1 ensures t[i] != '_' || t[i + 1] != '_' { assert s[i + 1] != '_' || s[i + 2] != '_'; }
    }
    if (s[0] == '_' ==> open) && Grouped(t, s[0] != '_') {
      forall i | 0 <= i < |s| ensures s[i] == '_' || DigitValue(s[i]).Some? { if i > 0 { assert s[i] == t[i - 1]; } }
      forall i | 0 <= i < |s| - 1 ensures s[i] != '_' || s[i + 1] != '_' {
        if i > 0 { assert t[i - 1] != '_' || t[i] != '_'; }
      }
    }
  }

  lemma {:induction false} DigitsIffGrouped(s: string, acc: nat, open: bool)
    ensures Digits(s, acc, open) == if Grouped(s, open) then Some(Value(Plain(s), acc)) else None
  {
    if s != "" {
      if s[0] == '_' {
        GroupedTail(s, open);
        DigitsIffGrouped(s[1..], acc, false);
      } else if DigitValue(s[0]).Some? {
        var d := DigitValue(s[0]).value;
        GroupedTail(s, open);
        DigitsIffGrouped(s[1..], 16 * acc + d, true);
        assert Plain(s)[1..] == Plain(s[1..]);
      }
    }
  }

  lemma {:induction false} BlanksDrop(before: string, t: string)
    requires Blank(before) && (t == "" || !IsBlank(t[0]))
    ensures DropBlanks(before + t) == t
  {
    if before == "" {
      assert before + t == t;
    } else {
      assert (before + t)[1..] == before[1..] + t;
      BlanksDrop(before[1..], t);
    }
  }

  lemma {:induction false} TrailingBlanksDrop(t: string, after: string)
    requires Blank(after) && (t == "" || !IsBlank(t[|t| - 1]))
    ensures DropTrailingBlanks(t + after) == t
  {
    if after == "" {
      assert t + after == t;
    } else {
      var n := |after| - 1;
      assert (t + after)[..|t| + n] == t + after[..n];
      TrailingBlanksDrop(t, after[..n]);
    }
  }

  lemma {:induction false} BlanksBefore(s: string) returns (before: string)
    ensures Blank(before) && s == before + DropBlanks(s)
  {
    before := "";
    if s != "" && IsBlank(s[0]) {
      before := BlanksBefore(s[1..]);
      before := [s[0]] + before;
    }
  }

  lemma {:induction false} BlanksAfter(s: string) returns (after: string)
    ensures Blank(after) && s == DropTrailingBlanks(s) + after
  {
    after := "";
    if s != "" && IsBlank(s[|s| - 1]) {
      after := BlanksAfter(s[..|s| - 1]);
      assert s == s[..|s| - 1] + [s[|s| - 1]];
      after := after + [s[|s| - 1]];
    }
  }

  lemma NoPrefix(digits: string)
    requires Grouped(digits, false)
    ensures Unprefixed(digits) == Digits(digits, 0, false)
  {
    assert |digits| >= 2 ==> digits[1] == '_' || DigitValue(digits[1]).Some?;
  }

  lemma ShortPrefix(x: char, digits: string)
    requires Grouped(digits, false) && (x == 'x' || x == 'X')
    ensures Unprefixed(['0', x] + digits) == Digits(digits, 0, false)
  {
    var s := ['0', x] + digits;
    assert s[2..] == digits && s[2] == digits[0];
  }

  lemma LongPrefix(x: char, digits: string)
    requires Grouped(digits, false) && (x == 'x' || x == 'X')
    ensures Unprefixed(['0', x, '_'] + digits) == Digits(digits, 0, false)
  {
    var s := ['0', x, '_'] + digits;
    assert s[3..] == digits;
  }

  lemma PrefixedParses(prefix: string, digits: string)
    requires prefix == "" || prefix == "0x" || prefix == "0X" || prefix == "0x_" || prefix == "0X_"
    requires Grouped(digits, false)
    ensures Unprefixed(prefix + digits) == Some(Value(Plain(digits), 0))
  {
    DigitsIffGrouped(digits, 0, false);
    if prefix == "" {
      NoPrefix(digits);
      assert "" + digits == digits;
    } else if |prefix| == 2 {
      ShortPrefix(prefix[1], digits);
      assert prefix == ['0', prefix[1]];
    } else {
      LongPrefix(prefix[1], digits);
      assert prefix == ['0', prefix[1], '_'];
    }
  }

  /** The core has no blank at its ends, and starts with a sign exactly if it is signed. */
  lemma CoreEnds(sp: Spelling)
    requires sp.Valid()
    ensures sp.Core() != "" && !IsBlank(sp.Core()[0]) && !IsBlank(sp.Core()[|sp.Core()| - 1])
    ensures sp.sign == "" <==> sp.Core()[0] != '+' && sp.Core()[0] != '-'
    ensures sp.Core() == sp.sign + (sp.prefix + sp.digits)
  {
    var core, body := sp.Core(), sp.prefix + sp.digits;
    assert core[|core| - 1] == sp.digits[|sp.digits| - 1];
    assert body[0] == (if sp.prefix == "" then sp.digits[0] else '0');
    assert core[0] == (if sp.sign == "" then body[0] else sp.sign[0]);
  }

  /** Every spelling of a number is read as that number. */
  lemma SpellingParses(sp: Spelling)
    requires sp.Valid()
    ensures ParseHex(sp.Text()) == Some(sp.Number())
  {
    var core := sp.Core();
    CoreEnds(sp);
    assert sp.Text() == sp.before + (core + sp.after) && (core + sp.after)[0] == core[0];
    BlanksDrop(sp.before, core + sp.after);
    TrailingBlanksDrop(core, sp.after);
    CoreParses(sp.sign, sp.prefix, sp.digits);
  }

  lemma CoreParses(sign: string, prefix: string, digits: string)
    requires Spelling("", sign, prefix, digits, "").Valid()
    ensures var body, core := prefix + digits, sign + (prefix + digits);
            && core != ""
            && (if core[0] == '+' || core[0] == '-' then Signed(core[0] == '-', Unprefixed(core[1..]))
                else Signed(false, Unprefixed(core))) == Some(Spelling("", sign, prefix, digits, "").Number())
  {
    CoreEnds(Spelling("", sign, prefix, digits, ""));
    PrefixedParses(prefix, digits);
    var core := sign + (prefix + digits);
    if sign == "" { assert core == prefix + digits; } else { assert core[1..] == prefix + digits && core[0] == sign[0]; }
  }

  lemma UnprefixedIsSpelled(s: string) returns (prefix: string, digits: string)
    requires Unprefixed(s).Some?
    ensures s == prefix + digits && Grouped(digits, false)
    ensures prefix == "" || prefix == "0x" || prefix == "0X" || prefix == "0x_" || prefix == "0X_"
  {
    prefix, digits := "", s;
    if |s| >= 2 && s[0] == '0' && (s[1] == 'x' || s[1] == 'X') {
      var k := if |s| >= 3 && s[2] == '_' then 3 else 2;
      prefix, digits := s[..k], s[k..];
      assert prefix[0] == '0' && prefix[1] == s[1] && (k == 3 ==> prefix[2] == '_');
    }
    DigitsIffGrouped(digits, 0, false);
  }

  lemma CoreIsSpelled(core: string) returns (sign: string, prefix: string, digits: string)
    requires ParseHex(core).Some? && DropTrailingBlanks(DropBlanks(core)) == core
    ensures Spelling("", sign, prefix, digits, "").Valid() && core == sign + (prefix + digits)
  {
    if core != "" && (core[0] == '+' || core[0] == '-') {
      sign := core[..1];
      assert sign == [core[0]];
      prefix, digits := UnprefixedIsSpelled(core[1..]);
    } else {
      sign := "";
      prefix, digits := UnprefixedIsSpelled(core);
    }
  }

  lemma {:induction false} NotBlankAtEnd(s: string)
    ensures DropBlanks(s) != "" ==> !IsBlank(DropBlanks(s)[0])
    decreases |s|
  {
    if s != "" { NotBlankAtEnd(s[1..]); }
  }

  lemma {:induction false} TrailingIsPrefix(s: string)
    ensures DropTrailingBlanks(s) <= s
    ensures DropTrailingBlanks(s) != "" ==> !IsBlank(DropTrailingBlanks(s)[|DropTrailingBlanks(s)| - 1])
    decreases |s|
  {
    if s != "" { TrailingIsPrefix(s[..|s| - 1]); }
  }

  /** Dropping blanks is final. */
  lemma CoreIsCore(text: string)
    ensures var core := DropTrailingBlanks(DropBlanks(text));
            DropTrailingBlanks(DropBlanks(core)) == core && ParseHex(core) == ParseHex(text)
  {
    var s := DropBlanks(text);
    var core := DropTrailingBlanks(s);
    NotBlankAtEnd(text);
    TrailingIsPrefix(s);
    assert core != "" ==> core[0] == s[0];
    BlanksDrop("", core);
    TrailingBlanksDrop(core, "");
    assert "" + core == core && core + "" == core;
  }

  lemma ParsedIsSpelled(text: string) returns (sp: Spelling)
    requires ParseHex(text).Some?
    ensures sp.Valid() && sp.Text() == text
  {
    var s := DropBlanks(text);
    var core := DropTrailingBlanks(s);
    CoreIsCore(text);
    var sign, prefix, digits := CoreIsSpelled(core);
    var before := BlanksBefore(text);
    var after := BlanksAfter(s);
    sp := Spelling(before, sign, prefix, digits, after);
    assert text == before + (core + after) == (before + core) + after;
  }

  ghost predicate Spells(text: string, n: int) {
    exists sp: Spelling :: sp.Valid() && sp.Text() == text && sp.Number() == n
  }

  /** A text is read as a number if and only if it is a spelling of it. */
  lemma ParsesIffSpelled(text: string, n: int)
    ensures ParseHex(text) == Some(n) <==> Spells(text, n)
  {
    if ParseHex(text) == Some(n) {
      var sp := ParsedIsSpelled(text);
      SpellingParses(sp);
      assert sp.Valid() && sp.Text() == text && sp.Number() == n;
    }
    if Spells(text, n) {
      var sp: Spelling :| sp.Valid() && sp.Text() == text && sp.Number() == n;
      SpellingParses(sp);
    }
  }

  /** The text is two spelled numbers with its first slash between them. */
  ghost predicate SpellsPosition(lsn: string, k: nat, high: int, low: int) {
    k < |lsn| && FirstSlashAt(lsn, k) && Spells(lsn[..k], high) && Spells(lsn[k + 1..], low)
  }

  predicate FirstSlashAt(s: string, k: nat)
    requires k < |s|
  {
    s[k] == '/' && forall i :: 0 <= i < k ==> s[i] != '/'
  }

  lemma FirstSlashIs(s: string, k: nat)
    requires k < |s| && FirstSlashAt(s, k)
    ensures FirstSlash(s) == k
  {
  }

  lemma SpelledPositionIsRead(lsn: string, k: nat, high: int, low: int)
    requires SpellsPosition(lsn, k, high, low)
    ensures LsnToInt(lsn) == Ok(high * SEGMENT + low)
  {
    FirstSlashIs(lsn, k);
    ParsesIffSpelled(lsn[..k], high);
    ParsesIffSpelled(lsn[k + 1..], low);
  }

  /** A position is read if and only if it is two numbers, spelled in any way, around its first
      slash, and then as high times 2^32 plus low; signs, blanks, prefixes and underscores are
      accepted. */
  lemma PositionReadIff(lsn: string)
    ensures LsnToInt(lsn).Ok? <==> exists k, high, low :: SpellsPosition(lsn, k, high, low)
    ensures forall k, high, low :: SpellsPosition(lsn, k, high, low) ==> LsnToInt(lsn) == Ok(high * SEGMENT + low)
  {
    forall k, high, low | SpellsPosition(lsn, k, high, low) ensures LsnToInt(lsn) == Ok(high * SEGMENT + low) {
      SpelledPositionIsRead(lsn, k, high, low);
    }
    if LsnToInt(lsn).Ok? {
      var k := FirstSlash(lsn);
      var high, low := ParseHex(lsn[..k]).value, ParseHex(lsn[k + 1..]).value;
      ParsesIffSpelled(lsn[..k], high);
      ParsesIffSpelled(lsn[k + 1..], low);
      assert SpellsPosition(lsn, k, high, low);
    }
  }

  /** Reading a printed position gives the position back. */
  lemma PrintParses(high: nat, low: nat)
    ensures LsnToInt(Print(high, low)) == Ok(high * SEGMENT + low)
  {
    var a, b := Hex(high), Hex(low);
    FirstSlashOf(a, b);
    assert Print(high, low)[..|a|] == a && Print(high, low)[|a| + 1..] == b;
    HexParses(high);
    HexParses(low);
  }

  lemma PositionParses(n: nat)
    ensures LsnToInt(Position(n)) == Ok(n)
  {
    var high, low := n / SEGMENT, n % SEGMENT;
    assert high * SEGMENT + low == n;
    PrintParses(high, low);
  }

  predicate Before(high: nat, low: nat, high': nat, low': nat) {
    high < high' || (high == high' && low < low')
  }

  predicate OrdersAgree(high: nat, low: nat, high': nat, low': nat) {
    var x, y := LsnToInt(Print(high, low)), LsnToInt(Print(high', low'));
    x.Ok? && y.Ok? && (x.value < y.value <==> Before(high, low, high', low'))
  }

  /** The integers compare like the pairs, against every proper position, exactly when the
      low part stays below one segment. */
  lemma IntegerOrderIsPairOrder(low: nat)
    ensures low < SEGMENT <==>
            forall high: nat, high': nat, low': nat :: low' < SEGMENT ==>
              OrdersAgree(high, low, high', low') && OrdersAgree(high', low', high, low)
  {
    if low < SEGMENT {
      forall high: nat, high': nat, low': nat | low' < SEGMENT
        ensures OrdersAgree(high, low, high', low') && OrdersAgree(high', low', high, low)
      {
        PrintParses(high, low);
        PrintParses(high', low');
      }
    } else {
      PrintParses(0, low);
      PrintParses(1, 0);
      assert !OrdersAgree(0, low, 1, 0);
    }
  }

  // ----- The promotion guard -----

  const NOT_FENCED := "refusing promotion until the old primary is fenced"
  const NOT_REPLAYED := "refusing promotion before acknowledged WAL is replayed"

  /** None when promotion is safe. */
  function RequireSafePromotion(primaryRunning: bool, replayLsn: string, acknowledgedLsn: string): Option<string> {
    if primaryRunning then Some(NOT_FENCED)
    else
      match (LsnToInt(replayLsn), LsnToInt(acknowledgedLsn))
      case (Ok(replay), Ok(acknowledged)) => if replay < acknowledged then Some(NOT_REPLAYED) else None
      case _ => Some(INVALID)
  }

  /** On positions as the database prints them the guard passes exactly when the old writer
      is down and the replayed position has reached the acknowledged one. */
  lemma GuardComparesPositions(primaryRunning: bool, replayed: nat, acknowledged: nat)
    ensures RequireSafePromotion(primaryRunning, Position(replayed), Position(acknowledged)).None?
            <==> !primaryRunning && acknowledged <= replayed
  {
    PositionParses(replayed);
    PositionParses(acknowledged);
  }
}
