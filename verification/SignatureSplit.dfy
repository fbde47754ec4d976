/** Splitting a printed signature at its top-level commas, and laying it out one parameter a
    line (scripts/generate_api_reference.py, `_split_signature` and `_format_signature`). */
module SignatureSplit {
  import opened Wrappers
  import OptionalRewrite

  // ----- `str.strip` -----

  predicate IsSpace(c: char) {
    || '\t' <= c <= '\r' || '\U{001C}' <= c <= ' ' || c == '\U{0085}' || c == '\U{00A0}' || c == '\U{1680}'
    || '\U{2000}' <= c <= '\U{200A}' || c == '\U{2028}' || c == '\U{2029}' || c == '\U{202F}' || c == '\U{205F}'
    || c == '\U{3000}'
  }

  function StripLeft(s: string): string {
    if s != "" && IsSpace(s[0]) then StripLeft(s[1..]) else s
  }

  function StripRight(s: string): string {
    if s != "" && IsSpace(s[|s| - 1]) then StripRight(s[..|s| - 1]) else s
  }

  function Strip(s: string): string {
    StripRight(StripLeft(s))
  }

  // ----- The scanner -----

  datatype Mode = Mode(stack: seq<char>, quote: Option<char>, escaped: bool)

  const CLEAN := Mode([], None, false)

  /** What one character does: it is read, it separates, it closes the signature, or it is
      the wrong closing bracket. */
  datatype Effect = Read(mode: Mode) | Separator | Closing | Mismatch

  function Opener(c: char): char {
    if c == ')' then '(' else if c == ']' then '[' else '{'
  }

  function ReadChar(m: Mode, c: char): Effect {
    if m.quote.Some? then
      Read(if m.escaped then m.(escaped := false)
           else if c == '\\' then m.(escaped := true)
           else if c == m.quote.value then m.(quote := None)
           else m)
    else if c == '\'' || c == '"' then Read(m.(quote := Some(c)))
    else if c == '(' || c == '[' || c == '{' then Read(m.(stack := m.stack + [c]))
    else if (c == ')' || c == ']' || c == '}') && m.stack != [] then
      if m.stack[|m.stack| - 1] != Opener(c) then Mismatch
      else Read(m.(stack := m.stack[..|m.stack| - 1]))
    else if c == ')' then Closing
    else if c == ',' && m.stack == [] then Separator
    else Read(m)
  }

  datatype Signature = Signature(parts: seq<string>, suffix: string)

  /** The split of the text still to read, with the raw text of the part so far. */
  function SplitFrom(s: string, m: Mode, part: string, parts: seq<string>): Option<Signature> {
    if s == "" then None
    else
      match ReadChar(m, s[0])
      case Read(next) => SplitFrom(s[1..], next, part + [s[0]], parts)
      case Separator => SplitFrom(s[1..], m, "", parts + [Strip(part)])
      case Closing => Some(Signature(parts + (if Strip(part) == "" then [] else [Strip(part)]), s[1..]))
      case Mismatch => None
  }

  function Split(value: string): Option<Signature> {
    if value == "" || value[0] != '(' then None else SplitFrom(value[1..], CLEAN, "", [])
  }

  lemma SplitNext(value: string, index: nat, start: nat)
    requires start <= index < |value|
    ensures value[index..][0] == value[index] && value[index..][1..] == value[index + 1..]
    ensures value[start..index] + [value[index]] == value[start..index + 1]
  {
  }

  method SplitSignature(value: string) returns (r: Option<Signature>)
    ensures r == Split(value)
  {
    if value == "" || value[0] != '(' {
      return None;
    }
    var stack: seq<char> := [];
    var quote: Option<char> := None;
    var escaped := false;
    var parts: seq<string> := [];
    var start: nat := 1;
    var closing := -1;
    var index: nat := 1;
    assert value[1..1] == "";
    while index < |value|
      invariant 1 <= start <= index <= |value| && closing == -1
      invariant SplitFrom(value[index..], Mode(stack, quote, escaped), value[start..index], parts) == Split(value)
    {
      var character := value[index];
      SplitNext(value, index, start);
      if quote.Some? {
        if escaped {
          escaped := false;
        } else if character == '\\' {
          escaped := true;
        } else if character == quote.value {
          quote := None;
        }
      } else if character == '\'' || character == '"' {
        quote := Some(character);
      } else if character == '(' || character == '[' || character == '{' {
        stack := stack + [character];
      } else if (character == ')' || character == ']' || character == '}') && stack != [] {
        if stack[|stack| - 1] != Opener(character) {
          return None;
        }
        stack := stack[..|stack| - 1];
      } else if character == ')' && stack == [] {
        closing := index;
        break;
      } else if character == ',' && stack == [] {
        parts := parts + [Strip(value[start..index])];
        start := index + 1;
        assert value[start..index + 1] == "";
      }
      index := index + 1;
    }
    if closing < 0 {
      assert index == |value| && value[index..] == "";
      return None;
    }
    assert Split(value) == Some(Signature(parts + (if Strip(value[start..closing]) == "" then [] else [Strip(value[start..closing])]),
                                          value[closing + 1..]));
    var final := Strip(value[start..closing]);
    assert parts + [] == parts;
    if final != "" {
      parts := parts + [final];
    }
    return Some(Signature(parts, value[closing + 1..]));
  }

  // ----- What is accepted -----

  /** The mode after reading `p`, if nothing in it separates, closes or mismatches. */
  function ReadAll(p: string, m: Mode): Option<Mode> {
    if p == "" then Some(m)
    else
      match ReadChar(m, p[0])
      case Read(next) => ReadAll(p[1..], next)
      case _ => None
  }

  /** A raw piece: its quotes and brackets are closed and its commas are all inside them. */
  predicate Piece(p: string) {
    ReadAll(p, CLEAN) == Some(CLEAN)
  }

  predicate Pieces(pieces: seq<string>) {
    pieces != [] && forall i :: 0 <= i < |pieces| ==> Piece(pieces[i])
  }

  function Join(pieces: seq<string>): string
    requires pieces != []
  {
    if |pieces| == 1 then pieces[0] else pieces[0] + ("," + Join(pieces[1..]))
  }

  /** Every piece stripped; a blank last one is dropped, a blank one elsewhere is kept. */
  function Stripped(pieces: seq<string>): seq<string>
    requires pieces != []
  {
    if |pieces| == 1 then (if Strip(pieces[0]) == "" then [] else [Strip(pieces[0])])
    else [Strip(pieces[0])] + Stripped(pieces[1..])
  }

  function Source(pieces: seq<string>, suffix: string): string
    requires pieces != []
  {
    "(" + (Join(pieces) + (")" + suffix))
  }

  lemma {:induction false} SplitReads(p: string, s: string, m: Mode, part: string, parts: seq<string>)
    requires ReadAll(p, m).Some?
    ensures SplitFrom(p + s, m, part, parts) == SplitFrom(s, ReadAll(p, m).value, part + p, parts)
    decreases |p|
  {
    if p == "" {
      assert p + s == s && part + p == part;
    } else {
      assert (p + s)[1..] == p[1..] + s && part + [p[0]] + p[1..] == part + p;
      SplitReads(p[1..], s, ReadChar(m, p[0]).mode, part + [p[0]], parts);
    }
  }

  lemma {:induction false} SplitJoined(pieces: seq<string>, suffix: string, parts: seq<string>)
    requires Pieces(pieces)
    ensures SplitFrom(Join(pieces) + (")" + suffix), CLEAN, "", parts) == Some(Signature(parts + Stripped(pieces), suffix))
    decreases |pieces|
  {
    var first := pieces[0];
    assert "" + first == first;
    if |pieces| == 1 {
      SplitReads(first, ")" + suffix, CLEAN, "", parts);
      assert (")" + suffix)[1..] == suffix;
    } else {
      var rest := Join(pieces[1..]) + (")" + suffix);
      assert Join(pieces) + (")" + suffix) == first + ("," + rest);
      SplitReads(first, "," + rest, CLEAN, "", parts);
      assert ("," + rest)[1..] == rest;
      SplitJoined(pieces[1..], suffix, parts + [Strip(first)]);
      assert parts + [Strip(first)] + Stripped(pieces[1..]) == parts + Stripped(pieces);
    }
  }

  /** The raw pieces the scanner cuts an accepted text into. */
  function RawPieces(s: string, m: Mode, part: string, parts: seq<string>): (pieces: seq<string>)
    requires SplitFrom(s, m, part, parts).Some?
    ensures pieces != []
  {
    match ReadChar(m, s[0])
    case Read(next) => RawPieces(s[1..], next, part + [s[0]], parts)
    case Separator => [part] + RawPieces(s[1..], m, "", parts + [Strip(part)])
    case Closing => [part]
  }

  lemma {:induction false} ReadAllAppend(p: string, c: char, m: Mode)
    requires ReadAll(p, m).Some? && ReadChar(ReadAll(p, m).value, c).Read?
    ensures ReadAll(p + [c], m) == Some(ReadChar(ReadAll(p, m).value, c).mode)
    decreases |p|
  {
    if p == "" {
      assert p + [c] == [c];
    } else {
      assert (p + [c])[1..] == p[1..] + [c];
      ReadAllAppend(p[1..], c, ReadChar(m, p[0]).mode);
    }
  }

  /** What the scan has seen so far, `part` and then `s`, is raw pieces and a suffix. */
  predicate CutsInto(text: string, pieces: seq<string>, parts: seq<string>, r: Signature) {
    Pieces(pieces) && text == Join(pieces) + (")" + r.suffix) && r.parts == parts + Stripped(pieces)
  }

  lemma CutAtComma(part: string, rest: string, pieces: seq<string>, parts: seq<string>, r: Signature)
    requires Piece(part) && CutsInto(rest, pieces, parts + [Strip(part)], r)
    ensures CutsInto(part + ("," + rest), [part] + pieces, parts, r)
  {
  }

  lemma SplitSteps(s: string, m: Mode, part: string, parts: seq<string>)
    requires SplitFrom(s, m, part, parts).Some?
    ensures s != "" && !ReadChar(m, s[0]).Mismatch?
    ensures var next := match ReadChar(m, s[0])
                        case Read(mode) => SplitFrom(s[1..], mode, part + [s[0]], parts)
                        case Separator => SplitFrom(s[1..], m, "", parts + [Strip(part)])
                        case _ => Some(Signature(parts + (if Strip(part) == "" then [] else [Strip(part)]), s[1..]));
            SplitFrom(s, m, part, parts) == next
    ensures ReadChar(m, s[0]).Separator? ==> s[0] == ',' && m.stack == [] && m.quote.None?
    ensures ReadChar(m, s[0]).Closing? ==> s[0] == ')' && m.stack == [] && m.quote.None?
  {
  }

  predicate ModeOk(m: Mode) {
    if m.quote.Some? then m.quote.value == '\'' || m.quote.value == '"' else !m.escaped
  }

  lemma {:induction false} ReadAllOk(p: string, m: Mode)
    requires ModeOk(m) && ReadAll(p, m).Some?
    ensures ModeOk(ReadAll(p, m).value)
    decreases |p|
  {
    if p != "" { ReadAllOk(p[1..], ReadChar(m, p[0]).mode); }
  }

  /** The pieces cut so far are those of the whole text. */
  predicate Cut(s: string, m: Mode, part: string, parts: seq<string>)
    requires SplitFrom(s, m, part, parts).Some?
  {
    CutsInto(part + s, RawPieces(s, m, part, parts), parts, SplitFrom(s, m, part, parts).value)
  }

  lemma CutRead(s: string, m: Mode, part: string, parts: seq<string>)
    requires SplitFrom(s, m, part, parts).Some? && ReadChar(m, s[0]).Read?
    requires Cut(s[1..], ReadChar(m, s[0]).mode, part + [s[0]], parts)
    ensures Cut(s, m, part, parts)
  {
  }

  lemma RawAtComma(s: string, m: Mode, part: string, parts: seq<string>)
    requires SplitFrom(s, m, part, parts).Some? && ReadChar(m, s[0]).Separator?
    ensures s == "," + s[1..]
    ensures SplitFrom(s[1..], m, "", parts + [Strip(part)]) == SplitFrom(s, m, part, parts)
    ensures RawPieces(s, m, part, parts) == [part] + RawPieces(s[1..], m, "", parts + [Strip(part)])
  {
  }

  lemma CutSeparator(s: string, m: Mode, part: string, parts: seq<string>)
    requires SplitFrom(s, m, part, parts).Some? && ReadChar(m, s[0]).Separator? && Piece(part)
    requires Cut(s[1..], m, "", parts + [Strip(part)])
    ensures Cut(s, m, part, parts)
  {
    RawAtComma(s, m, part, parts);
    var rest, r := s[1..], SplitFrom(s, m, part, parts).value;
    var pieces := RawPieces(rest, m, "", parts + [Strip(part)]);
    assert CutsInto(rest, pieces, parts + [Strip(part)], r) by { assert "" + rest == rest; }
    CutAtComma(part, rest, pieces, parts, r);
  }

  lemma CutClosing(s: string, m: Mode, part: string, parts: seq<string>)
    requires SplitFrom(s, m, part, parts).Some? && ReadChar(m, s[0]).Closing? && Piece(part)
    ensures Cut(s, m, part, parts)
  {
  }

  lemma {:induction false} AcceptedFrom(s: string, m: Mode, part: string, parts: seq<string>)
    requires SplitFrom(s, m, part, parts).Some? && ReadAll(part, CLEAN) == Some(m)
    ensures Cut(s, m, part, parts)
    decreases |s|
  {
    SplitSteps(s, m, part, parts);
    ReadAllOk(part, CLEAN);
    match ReadChar(m, s[0])
    case Read(next) =>
      ReadAllAppend(part, s[0], CLEAN);
      AcceptedFrom(s[1..], next, part + [s[0]], parts);
      CutRead(s, m, part, parts);
    case Separator =>
      AcceptedFrom(s[1..], m, "", parts + [Strip(part)]);
      CutSeparator(s, m, part, parts);
    case Closing =>
      CutClosing(s, m, part, parts);
  }

  ghost predicate IsSource(value: string, pieces: seq<string>, r: Signature) {
    Pieces(pieces) && value == Source(pieces, r.suffix) && r.parts == Stripped(pieces)
  }

  lemma SourceSplits(pieces: seq<string>, suffix: string)
    requires Pieces(pieces)
    ensures Split(Source(pieces, suffix)) == Some(Signature(Stripped(pieces), suffix))
  {
    SplitJoined(pieces, suffix, []);
    assert [] + Stripped(pieces) == Stripped(pieces);
    assert Source(pieces, suffix)[1..] == Join(pieces) + (")" + suffix);
  }

  /** A text splits into `r` exactly when it is "(" and raw pieces joined by commas and ")" and
      the suffix, with the stripped pieces as its parts. */
  lemma SplitsIffSource(value: string, r: Signature)
    ensures Split(value) == Some(r) <==> exists pieces :: IsSource(value, pieces, r)
  {
    if Split(value) == Some(r) {
      AcceptedFrom(value[1..], CLEAN, "", []);
      var pieces := RawPieces(value[1..], CLEAN, "", []);
      assert "" + value[1..] == value[1..] && value == "(" + value[1..];
      assert IsSource(value, pieces, r);
    }
    if exists pieces :: IsSource(value, pieces, r) {
      var pieces :| IsSource(value, pieces, r);
      SourceSplits(pieces, r.suffix);
    }
  }

  // ----- What a piece is, without the scanner -----

  /** One unit of quoted text: a character, or a backslash and any character. */
  datatype Unit = Bare(c: char) | Escaped(c: char)

  /** Text of characters, quoted strings and bracketed groups. */
  datatype Items =
    | End
    | CharThen(c: char, rest: Items)
    | QuoteThen(quote: char, units: seq<Unit>, rest: Items)
    | GroupThen(open: char, inside: Items, rest: Items)

  predicate IsQuote(c: char) {
    c == '\'' || c == '"'
  }

  predicate IsOpen(c: char) {
    c == '(' || c == '[' || c == '{'
  }

  predicate IsClose(c: char) {
    c == ')' || c == ']' || c == '}'
  }

  function CloserOf(open: char): char {
    match open
    case '(' => ')'
    case '[' => ']'
    case _ => '}'
  }

  /** Inside a group every closing bracket is taken by its group and commas are free; outside
      of all groups there is no comma and no round closing bracket. */
  predicate Formed(items: Items, top: bool) {
    match items
    case End => true
    case CharThen(c, rest) =>
      && !IsQuote(c) && !IsOpen(c) && (if top then c != ')' && c != ',' else !IsClose(c))
      && Formed(rest, top)
    case QuoteThen(quote, units, rest) => IsQuote(quote) && UnitsFormed(units, quote) && Formed(rest, top)
    case GroupThen(open, inside, rest) => IsOpen(open) && Formed(inside, false) && Formed(rest, top)
  }

  predicate UnitsFormed(units: seq<Unit>, quote: char) {
    forall i :: 0 <= i < |units| && units[i].Bare? ==> units[i].c != quote && units[i].c != '\\'
  }

  function UnitsText(units: seq<Unit>): string {
    if units == [] then ""
    else (match units[0] case Bare(c) => [c] case Escaped(c) => ['\\', c]) + UnitsText(units[1..])
  }

  function ItemsText(items: Items): string {
    match items
    case End => ""
    case CharThen(c, rest) => [c] + ItemsText(rest)
    case QuoteThen(quote, units, rest) => [quote] + (UnitsText(units) + ([quote] + ItemsText(rest)))
    case GroupThen(open, inside, rest) => [open] + (ItemsText(inside) + ([CloserOf(open)] + ItemsText(rest)))
  }

  lemma {:induction false} ReadThen(p: string, s: string, m: Mode)
    requires ReadAll(p, m).Some?
    ensures ReadAll(p + s, m) == ReadAll(s, ReadAll(p, m).value)
    decreases |p|
  {
    if p == "" {
      assert p + s == s;
    } else {
      assert (p + s)[1..] == p[1..] + s;
      ReadThen(p[1..], s, ReadChar(m, p[0]).mode);
    }
  }

  lemma ReadFirst(c: char, s: string, m: Mode)
    requires ReadChar(m, c).Read?
    ensures ReadAll([c] + s, m) == ReadAll(s, ReadChar(m, c).mode)
  {
    assert ([c] + s)[1..] == s;
  }

  lemma {:induction false} UnitsAreRead(units: seq<Unit>, m: Mode)
    requires m.quote.Some? && !m.escaped && IsQuote(m.quote.value) && UnitsFormed(units, m.quote.value)
    ensures ReadAll(UnitsText(units), m) == Some(m)
    decreases |units|
  {
    if units != [] {
      UnitsAreRead(units[1..], m);
      var rest := UnitsText(units[1..]);
      match units[0]
      case Bare(c) => ReadFirst(c, rest, m);
      case Escaped(c) =>
        ReadFirst(c, rest, m.(escaped := true));
        ReadFirst('\\', [c] + rest, m);
        assert ['\\', c] + rest == ['\\'] + ([c] + rest);
    }
  }

  /** Well-formed text is read without any effect. */
  lemma {:induction false} ItemsAreRead(items: Items, stack: seq<char>)
    requires Formed(items, stack == [])
    ensures ReadAll(ItemsText(items), Mode(stack, None, false)) == Some(Mode(stack, None, false))
  {
    var m := Mode(stack, None, false);
    match items
    case End =>
    case CharThen(c, rest) =>
      ItemsAreRead(rest, stack);
      ReadFirst(c, ItemsText(rest), m);
    case QuoteThen(quote, units, rest) =>
      ItemsAreRead(rest, stack);
      QuoteIsRead(quote, units, ItemsText(rest), stack);
    case GroupThen(open, inside, rest) =>
      ItemsAreRead(inside, stack + [open]);
      ItemsAreRead(rest, stack);
      GroupIsRead(open, ItemsText(inside), ItemsText(rest), stack);
  }

  lemma QuoteIsRead(quote: char, units: seq<Unit>, rest: string, stack: seq<char>)
    requires IsQuote(quote) && UnitsFormed(units, quote)
    ensures ReadAll([quote] + (UnitsText(units) + ([quote] + rest)), Mode(stack, None, false))
            == ReadAll(rest, Mode(stack, None, false))
  {
    var quoted := Mode(stack, Some(quote), false);
    UnitsAreRead(units, quoted);
    ReadFirst(quote, UnitsText(units) + ([quote] + rest), Mode(stack, None, false));
    ReadThen(UnitsText(units), [quote] + rest, quoted);
    ReadFirst(quote, rest, quoted);
  }

  lemma GroupIsRead(open: char, inside: string, rest: string, stack: seq<char>)
    requires IsOpen(open)
    requires ReadAll(inside, Mode(stack + [open], None, false)) == Some(Mode(stack + [open], None, false))
    ensures ReadAll([open] + (inside + ([CloserOf(open)] + rest)), Mode(stack, None, false))
            == ReadAll(rest, Mode(stack, None, false))
  {
    var within := Mode(stack + [open], None, false);
    ReadFirst(open, inside + ([CloserOf(open)] + rest), Mode(stack, None, false));
    ReadThen(inside, [CloserOf(open)] + rest, within);
    assert within.stack[..|within.stack| - 1] == stack;
    ReadFirst(CloserOf(open), rest, within);
  }

  /** What is left of a quoted string, and what follows it. */
  lemma {:induction false} QuoteEnds(p: string, quote: char, stack: seq<char>) returns (units: seq<Unit>, rest: string)
    requires IsQuote(quote) && ReadAll(p, Mode(stack, Some(quote), false)) == Some(CLEAN)
    ensures UnitsFormed(units, quote) && p == UnitsText(units) + ([quote] + rest)
    ensures ReadAll(rest, Mode(stack, None, false)) == Some(CLEAN)
    decreases |p|
  {
    var m := Mode(stack, Some(quote), false);
    if p[0] == quote {
      units, rest := [], p[1..];
      assert p == [p[0]] + p[1..];
    } else if p[0] == '\\' {
      assert ReadAll(p[1..], m.(escaped := true)) == Some(CLEAN);
      assert p[1..] != "";
      assert ReadAll(p[1..][1..], m) == Some(CLEAN) && p[1..][1..] == p[2..];
      units, rest := QuoteEnds(p[2..], quote, stack);
      assert p == ['\\', p[1]] + p[2..];
      units := [Escaped(p[1])] + units;
      assert units[1..] + [] == units[1..];
    } else {
      units, rest := QuoteEnds(p[1..], quote, stack);
      assert p == [p[0]] + p[1..];
      units := [Bare(p[0])] + units;
    }
  }

  /** Open groups from the inside out: what is left of each, and what surrounds it. */
  datatype Levels = Outer(items: Items) | Inner(items: Items, open: char, outer: Levels)

  function LevelsText(levels: Levels): string {
    match levels
    case Outer(items) => ItemsText(items)
    case Inner(items, open, outer) => ItemsText(items) + ([CloserOf(open)] + LevelsText(outer))
  }

  function StackOf(levels: Levels): seq<char> {
    match levels
    case Outer(_) => []
    case Inner(_, open, outer) => StackOf(outer) + [open]
  }

  predicate LevelsFormed(levels: Levels) {
    match levels
    case Outer(items) => Formed(items, true)
    case Inner(items, open, outer) => IsOpen(open) && Formed(items, false) && LevelsFormed(outer)
  }

  predicate AllOpen(stack: seq<char>) {
    forall i :: 0 <= i < |stack| ==> IsOpen(stack[i])
  }

  lemma StackIsLevels(levels: Levels)
    ensures StackOf(levels) == [] <==> levels.Outer?
  {
  }

  /** More text on the innermost level. */
  lemma LevelGrows(levels: Levels, more: string, items: Items)
    requires ItemsText(items) == more + ItemsText(levels.items)
    ensures LevelsText(levels.(items := items)) == more + LevelsText(levels)
  {
    if levels.Inner? {
      var rest := [CloserOf(levels.open)] + LevelsText(levels.outer);
      assert (more + ItemsText(levels.items)) + rest == more + (ItemsText(levels.items) + rest);
    }
  }

  lemma GroupCloses(inside: Items, open: char, outer: Levels)
    ensures LevelsText(outer.(items := GroupThen(open, inside, outer.items)))
            == [open] + LevelsText(Inner(inside, open, outer))
  {
    var more := [open] + (ItemsText(inside) + [CloserOf(open)]);
    var items := GroupThen(open, inside, outer.items);
    assert ItemsText(items) == more + ItemsText(outer.items);
    LevelGrows(outer, more, items);
    assert more + LevelsText(outer) == [open] + (ItemsText(inside) + ([CloserOf(open)] + LevelsText(outer)));
  }

  lemma QuoteJoins(quote: char, units: seq<Unit>, levels: Levels)
    ensures LevelsText(levels.(items := QuoteThen(quote, units, levels.items)))
            == [quote] + (UnitsText(units) + ([quote] + LevelsText(levels)))
  {
    var more := [quote] + (UnitsText(units) + [quote]);
    var items := QuoteThen(quote, units, levels.items);
    assert ItemsText(items) == more + ItemsText(levels.items);
    LevelGrows(levels, more, items);
    assert more + LevelsText(levels) == [quote] + (UnitsText(units) + ([quote] + LevelsText(levels)));
  }

  /** Text that the scanner reads from open groups to the end of all of them. */
  lemma {:induction false} ReadIsFormed(p: string, stack: seq<char>) returns (levels: Levels)
    requires AllOpen(stack) && ReadAll(p, Mode(stack, None, false)) == Some(CLEAN)
    ensures StackOf(levels) == stack && LevelsFormed(levels) && p == LevelsText(levels)
    decreases |p|
  {
    if p == "" {
      levels := Outer(End);
    } else {
      var c := p[0];
      assert p == [c] + p[1..];
      if IsQuote(c) {
        var units, rest := QuoteEnds(p[1..], c, stack);
        var after := ReadIsFormed(rest, stack);
        QuoteJoins(c, units, after);
        levels := after.(items := QuoteThen(c, units, after.items));
      } else if IsOpen(c) {
        levels := OpenIsFormed(p, stack);
      } else if IsClose(c) && stack != [] {
        levels := CloseIsFormed(p, stack);
      } else {
        var after := ReadIsFormed(p[1..], stack);
        StackIsLevels(after);
        LevelGrows(after, [c], CharThen(c, after.items));
        levels := after.(items := CharThen(c, after.items));
      }
    }
  }

  lemma {:induction false} OpenIsFormed(p: string, stack: seq<char>) returns (levels: Levels)
    requires AllOpen(stack) && p != "" && IsOpen(p[0]) && ReadAll(p, Mode(stack, None, false)) == Some(CLEAN)
    ensures StackOf(levels) == stack && LevelsFormed(levels) && p == LevelsText(levels)
    decreases |p|, 0
  {
    var c := p[0];
    assert p == [c] + p[1..];
    var within := ReadIsFormed(p[1..], stack + [c]);
    StackIsLevels(within);
    assert StackOf(within)[..|stack|] == stack && StackOf(within)[|stack|] == c;
    GroupCloses(within.items, c, within.outer);
    levels := within.outer.(items := GroupThen(c, within.items, within.outer.items));
  }

  lemma {:induction false} CloseIsFormed(p: string, stack: seq<char>) returns (levels: Levels)
    requires AllOpen(stack) && stack != [] && p != "" && IsClose(p[0])
    requires ReadAll(p, Mode(stack, None, false)) == Some(CLEAN)
    ensures StackOf(levels) == stack && LevelsFormed(levels) && p == LevelsText(levels)
    decreases |p|, 0
  {
    var open := stack[|stack| - 1];
    assert CloserOf(open) == p[0] && IsOpen(open);
    assert stack[..|stack| - 1] + [open] == stack && p == [p[0]] + p[1..];
    var outer := ReadIsFormed(p[1..], stack[..|stack| - 1]);
    levels := Inner(End, open, outer);
    assert "" + ([p[0]] + LevelsText(outer)) == [p[0]] + LevelsText(outer);
  }

  /** A piece is exactly well-formed text: quoted strings with escapes, groups in matching
      brackets, nested in any way, and outside of them no comma and no round closing bracket. */
  lemma PieceIffFormed(p: string)
    ensures Piece(p) <==> exists items: Items :: Formed(items, true) && ItemsText(items) == p
  {
    if Piece(p) {
      var levels := ReadIsFormed(p, []);
      StackIsLevels(levels);
      assert Formed(levels.items, true) && ItemsText(levels.items) == p;
    }
    if exists items: Items :: Formed(items, true) && ItemsText(items) == p {
      var items: Items :| Formed(items, true) && ItemsText(items) == p;
      ItemsAreRead(items, []);
    }
  }

  // ----- Layout -----

  const INDENT := "\n    "

  function Lines(parts: seq<string>): string {
    if parts == [] then "" else "    " + parts[0] + ",\n" + Lines(parts[1..])
  }

  /** One parameter a line. */
  function Layout(r: Signature): string {
    "(\n" + Lines(r.parts) + ")" + r.suffix
  }

  predicate Blank(s: string) {
    forall i :: 0 <= i < |s| ==> IsSpace(s[i])
  }

  /** Nothing to strip at either end. */
  predicate Trimmed(s: string) {
    s == "" || (!IsSpace(s[0]) && !IsSpace(s[|s| - 1]))
  }

  lemma {:induction false} StripLeftDrops(blanks: string, s: string)
    requires Blank(blanks) && (s == "" || !IsSpace(s[0]))
    ensures StripLeft(blanks + s) == s
    decreases |blanks|
  {
    if blanks == "" {
      assert blanks + s == s;
    } else {
      assert (blanks + s)[1..] == blanks[1..] + s;
      StripLeftDrops(blanks[1..], s);
    }
  }

  lemma {:induction false} StripLeftResult(s: string)
    ensures var t := StripLeft(s); |t| <= |s| && t == s[|s| - |t|..] && Blank(s[..|s| - |t|]) && (t == "" || !IsSpace(t[0]))
  {
    if s != "" && IsSpace(s[0]) {
      StripLeftResult(s[1..]);
      var t := StripLeft(s);
      var k := |s| - |t|;
      assert forall i :: 0 < i < k ==> s[i] == s[1..][..k - 1][i - 1];
    }
  }

  lemma {:induction false} StripRightResult(s: string)
    ensures var t := StripRight(s); |t| <= |s| && t == s[..|t|] && Blank(s[|t|..]) && (t == "" || !IsSpace(t[|t| - 1]))
  {
    if s != "" && IsSpace(s[|s| - 1]) {
      var front := s[..|s| - 1];
      StripRightResult(front);
      var t := StripRight(s);
      assert forall i :: |t| <= i < |s| - 1 ==> s[i] == front[|t|..][i - |t|];
    }
  }

  /** A text is blanks, its stripped form, and blanks. */
  lemma StripParts(s: string) returns (left: string, right: string)
    ensures s == left + (Strip(s) + right) && Blank(left) && Blank(right) && Trimmed(Strip(s))
  {
    StripLeftResult(s);
    var t := StripLeft(s);
    StripRightResult(t);
    left := s[..|s| - |t|];
    right := t[|Strip(s)|..];
  }

  lemma TrimmedIsKept(blanks: string, s: string)
    requires Blank(blanks) && Trimmed(s)
    ensures Strip(blanks + s) == s
  {
    StripLeftDrops(blanks, s);
  }

  lemma {:induction false} ReadAllConcat(a: string, b: string, m: Mode)
    ensures ReadAll(a + b, m) == if ReadAll(a, m).None? then None else ReadAll(b, ReadAll(a, m).value)
    decreases |a|
  {
    if a == "" {
      assert a + b == b;
    } else {
      assert (a + b)[1..] == a[1..] + b;
      if ReadChar(m, a[0]).Read? { ReadAllConcat(a[1..], b, ReadChar(m, a[0]).mode); }
    }
  }

  /** Blanks leave a clean scanner clean and make no other scanner clean. */
  lemma {:induction false} BlanksAreNeutral(blanks: string, m: Mode)
    requires Blank(blanks) && ModeOk(m)
    ensures ReadAll(blanks, m).Some?
    ensures ReadAll(blanks, m).value == CLEAN <==> m == CLEAN
    decreases |blanks|
  {
    if blanks != "" {
      assert ReadChar(m, blanks[0]).Read?;
      BlanksAreNeutral(blanks[1..], ReadChar(m, blanks[0]).mode);
    }
  }

  lemma SurroundedPiece(left: string, s: string, right: string)
    requires Blank(left) && Blank(right)
    ensures Piece(left + (s + right)) <==> Piece(s)
  {
    ReadAllConcat(left, s + right, CLEAN);
    BlanksAreNeutral(left, CLEAN);
    ReadAllConcat(s, right, CLEAN);
    if ReadAll(s, CLEAN).Some? { ReadAllOk(s, CLEAN); BlanksAreNeutral(right, ReadAll(s, CLEAN).value); }
  }

  lemma StrippedPiece(p: string)
    ensures Piece(p) <==> Piece(Strip(p))
    ensures Trimmed(Strip(p))
  {
    var left, right := StripParts(p);
    SurroundedPiece(left, Strip(p), right);
  }

  /** The parts of an accepted signature are trimmed pieces. */
  lemma {:induction false} StrippedParts(pieces: seq<string>)
    requires Pieces(pieces)
    ensures forall i :: 0 <= i < |Stripped(pieces)| ==> Piece(Stripped(pieces)[i]) && Trimmed(Stripped(pieces)[i])
    decreases |pieces|
  {
    StrippedPiece(pieces[0]);
    if |pieces| > 1 { StrippedParts(pieces[1..]); }
  }

  /** The raw pieces of the layout. */
  function LayoutPieces(parts: seq<string>): (pieces: seq<string>)
    ensures pieces != []
  {
    if parts == [] then ["\n"] else [INDENT + parts[0]] + LayoutPieces(parts[1..])
  }

  lemma {:induction false} LayoutIsSource(parts: seq<string>)
    ensures Join(LayoutPieces(parts)) == "\n" + Lines(parts)
  {
    if parts != [] {
      LayoutIsSource(parts[1..]);
      assert LayoutPieces(parts)[1..] == LayoutPieces(parts[1..]);
      LineText(parts[0], Lines(parts[1..]));
    }
  }

  lemma LineText(part: string, rest: string)
    ensures INDENT + part + ("," + ("\n" + rest)) == "\n" + ("    " + part + ",\n" + rest)
  {
  }

  lemma LastLineStrips()
    ensures Pieces(LayoutPieces([])) && Stripped(LayoutPieces([])) == []
  {
    TrimmedIsKept("\n", "");
    assert Piece("");
    SurroundedPiece("\n", "", "");
    assert "\n" + "" == "\n" && "\n" + ("" + "") == "\n";
  }

  lemma {:induction false} LayoutStrips(parts: seq<string>)
    requires forall i :: 0 <= i < |parts| ==> Piece(parts[i]) && Trimmed(parts[i])
    ensures Pieces(LayoutPieces(parts)) && Stripped(LayoutPieces(parts)) == parts
  {
    if parts == [] {
      LastLineStrips();
    } else {
      var first := parts[0];
      LayoutStrips(parts[1..]);
      TrimmedIsKept(INDENT, first);
      SurroundedPiece(INDENT, first, "");
      assert INDENT + (first + "") == INDENT + first;
      assert LayoutPieces(parts)[1..] == LayoutPieces(parts[1..]);
      assert [first] + parts[1..] == parts;
    }
  }

  /** Reading the layout back gives exactly the same parts and suffix, empty parts included. */
  lemma LayoutReadsBack(value: string)
    requires Split(value).Some?
    ensures Split(Layout(Split(value).value)) == Split(value)
  {
    var r := Split(value).value;
    SplitsIffSource(value, r);
    var pieces :| IsSource(value, pieces, r);
    StrippedParts(pieces);
    LayoutStrips(r.parts);
    LayoutIsSource(r.parts);
    SourceSplits(LayoutPieces(r.parts), r.suffix);
    assert Layout(r) == Source(LayoutPieces(r.parts), r.suffix) by {
      assert "(\n" + Lines(r.parts) + ")" + r.suffix == "(" + (("\n" + Lines(r.parts)) + (")" + r.suffix));
    }
  }

  // ----- Formatting -----

  predicate IsHex(c: char) {
    '0' <= c <= '9' || 'a' <= c <= 'f' || 'A' <= c <= 'F'
  }

  function SkipHex(s: string): (r: string)
    ensures |r| <= |s|
  {
    if s != "" && IsHex(s[0]) then SkipHex(s[1..]) else s
  }

  /** An address of a printed object, as in " at 0x7f". */
  predicate HasAddress(s: string) {
    && |s| >= 7
    && s[0] == ' ' && s[1] == 'a' && s[2] == 't' && s[3] == ' ' && s[4] == '0' && s[5] == 'x' && IsHex(s[6])
  }

  function DropAddresses(s: string): string
    decreases |s|
  {
    if s == "" then ""
    else if HasAddress(s) then DropAddresses(SkipHex(s[6..]))
    else [s[0]] + DropAddresses(s[1..])
  }

  predicate AllHex(s: string) {
    forall i :: 0 <= i < |s| ==> IsHex(s[i])
  }

  const ADDRESS := " at 0x"

  /** No object address is left in the text. */
  predicate AddressFree(s: string) {
    forall i :: 0 <= i <= |s| ==> !HasAddress(s[i..])
  }

  lemma {:induction false} SkipsHex(hex: string, rest: string)
    requires AllHex(hex) && (rest == "" || !IsHex(rest[0]))
    ensures SkipHex(hex + rest) == rest
  {
    if hex == "" {
      assert hex + rest == rest;
    } else {
      assert (hex + rest)[1..] == hex[1..] + rest;
      SkipsHex(hex[1..], rest);
    }
  }

  /** An address at the front goes, whatever its digits are. */
  lemma DropsFront(hex: string, rest: string)
    requires hex != "" && AllHex(hex) && (rest == "" || !IsHex(rest[0]))
    ensures DropAddresses(ADDRESS + hex + rest) == DropAddresses(rest)
  {
    var s := ADDRESS + hex + rest;
    assert s[6..] == hex + rest;
    SkipsHex(hex, rest);
  }

  lemma {:induction false} SkipStopsBefore(s: string, tail: string)
    requires tail != "" && !IsHex(tail[0])
    ensures SkipHex(s + tail) == SkipHex(s) + tail
  {
    if s == "" {
      assert s + tail == tail;
    } else {
      assert (s + tail)[1..] == s[1..] + tail;
      if IsHex(s[0]) { SkipStopsBefore(s[1..], tail); }
    }
  }

  /** What stands before an address is dropped from on its own: no address reaches into the
      next one. */
  lemma {:induction false} DropsBefore(before: string, tail: string)
    requires |tail| >= 6 && tail[..6] == ADDRESS
    ensures DropAddresses(before + tail) == DropAddresses(before) + DropAddresses(tail)
    decreases |before|
  {
    var s := before + tail;
    if before == "" {
      assert s == tail;
    } else {
      SameStart(before, tail);
      assert s[1..] == before[1..] + tail;
      if HasAddress(before) {
        assert s[6..] == before[6..] + tail;
        SkipStopsBefore(before[6..], tail);
        DropsBefore(SkipHex(before[6..]), tail);
      } else {
        DropsBefore(before[1..], tail);
        assert [before[0]] + (DropAddresses(before[1..]) + DropAddresses(tail))
            == ([before[0]] + DropAddresses(before[1..])) + DropAddresses(tail);
      }
    }
  }

  lemma SameStart(before: string, tail: string)
    requires before != "" && |tail| >= 6 && tail[..6] == ADDRESS
    ensures HasAddress(before + tail) <==> HasAddress(before)
  {
    var s := before + tail;
    assert tail[0] == ADDRESS[0] && tail[1] == ADDRESS[1] && tail[2] == ADDRESS[2] && tail[3] == ADDRESS[3]
           && tail[4] == ADDRESS[4] && tail[5] == ADDRESS[5];
    assert forall i :: 0 <= i < |before| ==> s[i] == before[i];
    assert forall i :: |before| <= i < |s| ==> s[i] == tail[i - |before|];
  }

  /** Every address of a printed object vanishes, whatever its digits: two printings that
      differ in addresses alone give the same text, and so the same reference. */
  lemma AddressesVanish(before: string, hex: string, rest: string)
    requires hex != "" && AllHex(hex) && (rest == "" || !IsHex(rest[0]))
    ensures DropAddresses(before + (ADDRESS + hex + rest)) == DropAddresses(before) + DropAddresses(rest)
  {
    DropsBefore(before, ADDRESS + hex + rest);
    DropsFront(hex, rest);
  }

  lemma {:induction false} DropShortens(s: string)
    ensures |DropAddresses(s)| <= |s|
    ensures HasAddress(s) ==> |DropAddresses(s)| < |s|
    decreases |s|
  {
    if s != "" {
      if HasAddress(s) { DropShortens(SkipHex(s[6..])); } else { DropShortens(s[1..]); }
    }
  }

  /** A text without addresses is left as it is, and no other. */
  lemma {:induction false} KeptIffAddressFree(s: string)
    ensures DropAddresses(s) == s <==> AddressFree(s)
    decreases |s|
  {
    if s != "" {
      DropShortens(s);
      assert s[0..] == s;
      assert [s[0]] + s[1..] == s;
      forall i | 0 <= i < |s| ensures s[1..][i..] == s[i + 1..] {}
      KeptIffAddressFree(s[1..]);
      if AddressFree(s[1..]) && !HasAddress(s) {
        forall i | 0 <= i <= |s| ensures !HasAddress(s[i..]) {
          if i > 0 { assert s[1..][i - 1..] == s[i..]; }
        }
      }
      if AddressFree(s) {
        forall i | 0 <= i <= |s[1..]| ensures !HasAddress(s[1..][i..]) { assert s[1..][i..] == s[i + 1..]; }
      }
    }
  }

  function Normalized(value: string): string {
    OptionalRewrite.Normalize(DropAddresses(value))
  }

  function FormatSignature(value: string, width: nat): string {
    var v := Normalized(value);
    if |v| <= width then v
    else
      match Split(v)
      case None => v
      case Some(r) => if r.parts == [] then v else Layout(r)
  }

  /** Formatting never changes what a signature says: its parameters and suffix are those of
      the unformatted text, and a text that is not a signature is left alone. */
  lemma FormattingKeepsTheSignature(value: string, width: nat)
    ensures Split(FormatSignature(value, width)) == Split(Normalized(value))
    ensures Split(Normalized(value)).None? ==> FormatSignature(value, width) == Normalized(value)
  {
    var v := Normalized(value);
    if Split(v).Some? { LayoutReadsBack(v); }
  }

  /** A text is laid out if and only if it is longer than the width and is a bracketed list with
      parameters; anything else is left as it is after normalizing. */
  lemma LaidOutIff(value: string, width: nat)
    ensures forall pieces, r :: IsSource(Normalized(value), pieces, r) ==>
              FormatSignature(value, width)
              == if |Normalized(value)| > width && r.parts != [] then Layout(r) else Normalized(value)
    ensures (forall pieces, r :: !IsSource(Normalized(value), pieces, r)) ==>
              FormatSignature(value, width) == Normalized(value)
  {
    var v := Normalized(value);
    forall pieces, r | IsSource(v, pieces, r)
      ensures FormatSignature(value, width) == if |v| > width && r.parts != [] then Layout(r) else v
    {
      SplitsIffSource(v, r);
    }
    if Split(v).Some? { SplitsIffSource(v, Split(v).value); }
  }

  /** The lines of a text. */
  function TextLines(s: string): (lines: seq<string>)
    ensures lines != []
  {
    if s == "" then [""]
    else
      var rest := TextLines(s[1..]);
      if s[0] == '\n' then [""] + rest else [[s[0]] + rest[0]] + rest[1..]
  }

  lemma {:induction false} OneLine(line: string, rest: string)
    requires '\n' !in line
    ensures TextLines(line) == [line]
    ensures TextLines(line + ("\n" + rest)) == [line] + TextLines(rest)
  {
    var all := line + ("\n" + rest);
    if line == "" {
      assert all == "\n" + rest && all[1..] == rest;
    } else {
      OneLine(line[1..], rest);
      assert all[1..] == line[1..] + ("\n" + rest);
      assert [line[0]] + line[1..] == line;
    }
  }

  /** A parameter on its own line. */
  function ParameterLine(part: string): string {
    "    " + part + ","
  }

  predicate OnOneLine(s: string) {
    '\n' !in s
  }

  lemma {:induction false} LinesOfParameters(parts: seq<string>, last: string)
    requires (forall i :: 0 <= i < |parts| ==> OnOneLine(parts[i])) && OnOneLine(last)
    ensures TextLines(Lines(parts) + last) == seq(|parts|, i requires 0 <= i < |parts| => ParameterLine(parts[i])) + [last]
  {
    var lines := seq(|parts|, i requires 0 <= i < |parts| => ParameterLine(parts[i]));
    if parts == [] {
      OneLine(last, "");
      assert "" + last == last;
    } else {
      var tail := Lines(parts[1..]) + last;
      LinesOfParameters(parts[1..], last);
      OneLine(ParameterLine(parts[0]), tail);
      assert Lines(parts) + last == ParameterLine(parts[0]) + ("\n" + tail);
      assert lines == [ParameterLine(parts[0])] + lines[1..];
      assert lines[1..] == seq(|parts[1..]|, i requires 0 <= i < |parts[1..]| => ParameterLine(parts[1..][i]));
    }
  }

  /** The layout has one line for each parameter between its brackets. */
  lemma OneParameterALine(r: Signature)
    requires (forall i :: 0 <= i < |r.parts| ==> OnOneLine(r.parts[i])) && OnOneLine(r.suffix)
    ensures TextLines(Layout(r))
            == ["("] + seq(|r.parts|, i requires 0 <= i < |r.parts| => ParameterLine(r.parts[i])) + [")" + r.suffix]
  {
    var last := ")" + r.suffix;
    LinesOfParameters(r.parts, last);
    OneLine("(", Lines(r.parts) + last);
    assert Layout(r) == "(" + ("\n" + (Lines(r.parts) + last));
  }
}
