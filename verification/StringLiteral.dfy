/**
 The generator of C string literals (tools/strliteral.c), against the rules by which a C
 compiler reads them back: ISO/IEC 9899:2011, sections 5.1.1.2, 6.4.4.4 and 6.4.5.
 */
module StringLiteral {

  datatype Option<+T> = None | Some(value: T)

  type Byte = c: int | 0 <= c < 256

  const SEPARATOR := "\"\n\t\""

  // ---------------------------------------------------------------- writing

  function Digit(d: int): char
    requires 0 <= d < 8
  {
    '0' + (d as char)
  }

  function Octal(c: Byte): string {
    ['\\', Digit(c / 64), Digit(c / 8 % 8), Digit(c % 8)]
  }

  predicate Plain(c: Byte) {
    32 <= c <= 126 && (c as char) !in {'"', '\\', '?', ':', '%'}
  }

  /** One byte of input as it is written. */
  function Escape(c: Byte, always: bool): (e: string)
    ensures 1 <= |e| <= 4
  {
    if always then Octal(c)
    else if Plain(c) then [c as char]
    else if c == 13 then "\\r"
    else if c == 10 then "\\n"
    else if c == 9 then "\\t"
    else if c == 34 then "\\\""
    else if c == 92 then "\\\\"
    else Octal(c)
  }

  /** Everything between the first and the last quotation mark, when `n` characters already
      stand in the line: a line that has become long enough ends its literal. */
  function Lines(input: seq<Byte>, always: bool, max: nat, n: nat): string {
    if input == [] then []
    else
      var e := Escape(input[0], always);
      if n + |e| >= max then e + (SEPARATOR + Lines(input[1..], always, max, 0))
      else e + Lines(input[1..], always, max, n + |e|)
  }

  function Text(input: seq<Byte>, always: bool, max: nat): string {
    "\"" + (Lines(input, always, max, 0) + "\";")
  }

  // ---------------------------------------------------------------- reading

  /** Translation phase 1: trigraph sequences. */
  function Trigraph(c: char): Option<char> {
    match c
    case '=' => Some('#')
    case '(' => Some('[')
    case '/' => Some('\\')
    case ')' => Some(']')
    case '\'' => Some('^')
    case '<' => Some('{')
    case '!' => Some('|')
    case '>' => Some('}')
    case '-' => Some('~')
    case _ => None
  }

  function Phase1(t: string): string {
    if |t| >= 3 && t[0] == '?' && t[1] == '?' && Trigraph(t[2]).Some? then [Trigraph(t[2]).value] + Phase1(t[3..])
    else if t == [] then []
    else [t[0]] + Phase1(t[1..])
  }

  /** Translation phase 2: a backslash at the end of a line joins it with the next. */
  function Phase2(t: string): string {
    if |t| >= 2 && t[0] == '\\' && t[1] == '\n' then Phase2(t[2..])
    else if t == [] then []
    else [t[0]] + Phase2(t[1..])
  }

  predicate IsOctal(c: char) {
    '0' <= c <= '7'
  }

  /** The length of the octal sequence at the head of `t`, three digits at most. */
  function OctalLength(t: string): (n: nat)
    ensures n <= 3 && n <= |t| && forall i :: 0 <= i < n ==> IsOctal(t[i])
  {
    if |t| >= 1 && IsOctal(t[0]) then
      if |t| >= 2 && IsOctal(t[1]) then
        if |t| >= 3 && IsOctal(t[2]) then 3 else 2
      else 1
    else 0
  }

  function OctalValue(t: string): (v: nat)
    requires forall i :: 0 <= i < |t| ==> IsOctal(t[i])
  {
    if t == [] then 0
    else
      assert IsOctal(t[|t| - 1]);
      8 * OctalValue(t[..|t| - 1]) + (t[|t| - 1] as int - '0' as int)
  }

  function HexDigit(c: char): Option<nat> {
    if '0' <= c <= '9' then Some(c as int - '0' as int)
    else if 'a' <= c <= 'f' then Some(c as int - 'a' as int + 10)
    else if 'A' <= c <= 'F' then Some(c as int - 'A' as int + 10)
    else None
  }

  function HexLength(t: string): (n: nat)
    ensures n <= |t| && forall i :: 0 <= i < n ==> HexDigit(t[i]).Some?
  {
    if t == [] || HexDigit(t[0]).None? then 0
    else
      var n := HexLength(t[1..]);
      assert forall i :: 1 <= i < n + 1 ==> t[i] == t[1..][i - 1];
      n + 1
  }

  function HexValue(t: string): nat
    requires forall i :: 0 <= i < |t| ==> HexDigit(t[i]).Some?
  {
    if t == [] then 0 else 16 * HexValue(t[..|t| - 1]) + HexDigit(t[|t| - 1]).value
  }

  /** Simple escape sequences. */
  function Simple(c: char): Option<Byte> {
    match c
    case '\'' => Some(39)
    case '"' => Some(34)
    case '?' => Some(63)
    case '\\' => Some(92)
    case 'a' => Some(7)
    case 'b' => Some(8)
    case 'f' => Some(12)
    case 'n' => Some(10)
    case 'r' => Some(13)
    case 't' => Some(9)
    case 'v' => Some(11)
    case _ => None
  }

  function Prepend(v: int, r: Option<seq<Byte>>): Option<seq<Byte>> {
    if r.None? || v < 0 || v > 255 then None else Some([v] + r.value)
  }

  predicate Blank(c: char) {
    c == ' ' || c == '\t' || c == '\n'
  }

  /** The rest of a string literal, adjacent literals included, up to the semicolon. */
  function Inside(t: string): Option<seq<Byte>>
    decreases |t|
  {
    if t == [] || t[0] == '\n' then None
    else if t[0] == '"' then Between(t[1..])
    else if t[0] != '\\' then Prepend(t[0] as int, Inside(t[1..]))
    else if |t| < 2 then None
    else if IsOctal(t[1]) then
      var n := OctalLength(t[1..]);
      Prepend(OctalValue(t[1..][..n]), Inside(t[1 + n..]))
    else if t[1] == 'x' then
      var n := HexLength(t[2..]);
      if n == 0 then None else Prepend(HexValue(t[2..][..n]), Inside(t[2 + n..]))
    else if Simple(t[1]).Some? then Prepend(Simple(t[1]).value, Inside(t[2..]))
    else None
  }

  /** Adjacent string literals are concatenated. */
  function Between(t: string): Option<seq<Byte>>
    decreases |t|
  {
    if t == [] then None
    else if Blank(t[0]) then Between(t[1..])
    else if t[0] == '"' then Inside(t[1..])
    else if t[0] == ';' then Some([])
    else None
  }

  /** What the compiler makes of the initializer. */
  function Compile(t: string): Option<seq<Byte>> {
    Between(Phase2(Phase1(t)))
  }

  // ---------------------------------------------------------------- no trigraphs, no joined lines

  /** Every line break stands right behind a quotation mark, and there is no question mark. */
  ghost predicate Quiet(t: string) {
    && (forall i :: 0 <= i < |t| ==> t[i] != '?')
    && (forall i :: 0 <= i < |t| && t[i] == '\n' ==> i > 0 && t[i - 1] == '"')
  }

  lemma {:induction false} Phase1Same(t: string)
    requires forall i :: 0 <= i < |t| ==> t[i] != '?'
    ensures Phase1(t) == t
  {
    if t != [] {
      assert t[0] != '?';
      forall i | 0 <= i < |t| - 1 ensures t[1..][i] != '?' { assert t[1..][i] == t[i + 1]; }
      Phase1Same(t[1..]);
    }
  }

  lemma {:induction false} Phase2Same(t: string)
    requires forall i :: 0 < i < |t| && t[i] == '\n' ==> t[i - 1] == '"'
    ensures Phase2(t) == t
  {
    if t != [] {
      assert |t| >= 2 && t[1] == '\n' ==> t[0] == '"';
      forall i | 0 < i < |t| - 1 && t[1..][i] == '\n' ensures t[1..][i - 1] == '"' { assert t[i + 1] == '\n'; }
      Phase2Same(t[1..]);
    }
  }

  lemma QuietAppend(a: string, b: string)
    requires Quiet(a) && Quiet(b)
    ensures Quiet(a + b)
  {
    var t := a + b;
    forall i | 0 <= i < |t| && t[i] == '\n' ensures i > 0 && t[i - 1] == '"' {
      if i < |a| { assert t[i - 1] == a[i - 1]; } else { assert t[i - 1] == b[i - |a| - 1]; }
    }
  }

  lemma EscapeQuiet(c: Byte, always: bool)
    ensures Quiet(Escape(c, always))
  {
    assert Digit(c / 64) != '?' && Digit(c / 8 % 8) != '?' && Digit(c % 8) != '?';
    assert Digit(c / 64) != '\n' && Digit(c / 8 % 8) != '\n' && Digit(c % 8) != '\n';
  }

  lemma {:induction false} LinesQuiet(input: seq<Byte>, always: bool, max: nat, n: nat)
    ensures Quiet(Lines(input, always, max, n))
  {
    if input != [] {
      var e := Escape(input[0], always);
      EscapeQuiet(input[0], always);
      if n + |e| >= max {
        LinesQuiet(input[1..], always, max, 0);
        QuietAppend(SEPARATOR, Lines(input[1..], always, max, 0));
        QuietAppend(e, SEPARATOR + Lines(input[1..], always, max, 0));
      } else {
        LinesQuiet(input[1..], always, max, n + |e|);
        QuietAppend(e, Lines(input[1..], always, max, n + |e|));
      }
    }
  }

  lemma TextQuiet(input: seq<Byte>, always: bool, max: nat)
    ensures Quiet(Text(input, always, max))
  {
    LinesQuiet(input, always, max, 0);
    QuietAppend(Lines(input, always, max, 0), "\";");
    QuietAppend("\"", Lines(input, always, max, 0) + "\";");
  }

  // ---------------------------------------------------------------- one byte

  lemma OctalRead(c: Byte, rest: string)
    ensures Inside(Octal(c) + rest) == Prepend(c, Inside(rest))
  {
    var a, b, d := Digit(c / 64), Digit(c / 8 % 8), Digit(c % 8);
    var t := Octal(c) + rest;
    assert t[1..] == [a, b, d] + rest;
    assert t[1..][..3] == [a, b, d];
    assert t[4..] == rest;
    assert OctalLength(t[1..]) == 3;
    OctalOf(c);
  }

  lemma OctalOf(c: Byte)
    ensures var t := [Digit(c / 64), Digit(c / 8 % 8), Digit(c % 8)];
      (forall i :: 0 <= i < |t| ==> IsOctal(t[i])) && OctalValue(t) == c
  {
    var a, b, d := Digit(c / 64), Digit(c / 8 % 8), Digit(c % 8);
    assert [a, b, d][..2] == [a, b] && [a, b][..1] == [a] && [a][..0] == [];
    assert OctalValue([a]) == c / 64;
    assert OctalValue([a, b]) == 8 * (c / 64) + c / 8 % 8;
  }

  /** Whatever follows, an escaped byte is read back as that byte. */
  lemma EscapeRead(c: Byte, always: bool, rest: string)
    ensures Inside(Escape(c, always) + rest) == Prepend(c, Inside(rest))
  {
    OctalRead(c, rest);
    var t := Escape(c, always) + rest;
    if !always && Plain(c) {
      assert t[1..] == rest;
    } else if !always && c in {9, 10, 13, 34, 92} {
      assert t[0] == '\\' && t[2..] == rest;
    }
  }

  lemma SeparatorRead(rest: string)
    ensures Inside(SEPARATOR + rest) == Inside(rest)
  {
    var t := SEPARATOR + rest;
    assert t[0] == '"' && t[1..] == "\n\t\"" + rest;
    assert t[1..][1..] == "\t\"" + rest;
    assert t[1..][1..][1..] == "\"" + rest;
    assert t[1..][1..][1..][1..] == rest;
    assert Between("\"" + rest) == Inside(rest) by { assert ("\"" + rest)[1..] == rest; }
    assert Between("\t\"" + rest) == Between("\"" + rest) by { assert ("\t\"" + rest)[1..] == "\"" + rest; }
  }

  // ---------------------------------------------------------------- round trip

  lemma {:induction false} LinesRead(input: seq<Byte>, always: bool, max: nat, n: nat)
    ensures Inside(Lines(input, always, max, n) + "\";") == Some(input)
  {
    hide Inside, Escape;
    if input == [] {
      EndRead();
      assert [] + "\";" == "\";";
    } else {
      var e := Escape(input[0], always);
      var flush := n + |e| >= max;
      var rest := Lines(input[1..], always, max, if flush then 0 else n + |e|) + "\";";
      LinesRead(input[1..], always, max, if flush then 0 else n + |e|);
      SeparatorRead(rest);
      EscapeRead(input[0], always, if flush then SEPARATOR + rest else rest);
      assert Lines(input, always, max, n) + "\";" == e + (if flush then SEPARATOR + rest else rest);
      assert [input[0]] + input[1..] == input;
    }
  }

  lemma EndRead()
    ensures Inside("\";") == Some([])
  {
    assert "\";"[1..] == ";";
    assert Between(";") == Some([]);
  }

  /** For every input, every line length and either mode the compiler reads back the input. */
  lemma RoundTrip(input: seq<Byte>, always: bool, max: nat)
    ensures Compile(Text(input, always, max)) == Some(input)
  {
    hide Phase1, Phase2, Lines, Inside;
    var t := Text(input, always, max);
    TextQuiet(input, always, max);
    Phase1Same(t);
    Phase2Same(t);
    LinesRead(input, always, max, 0);
    assert t[0] == '"' && t[1..] == Lines(input, always, max, 0) + "\";";
  }

  // ---------------------------------------------------------------- literals are whole

  function Escaped(piece: seq<Byte>, always: bool): string {
    if piece == [] then [] else Escaped(piece[..|piece| - 1], always) + Escape(piece[|piece| - 1], always)
  }

  /** The input cut where the output ends a literal; `got` is what the open literal holds. */
  function Pieces(input: seq<Byte>, always: bool, max: nat, got: seq<Byte>): (r: seq<seq<Byte>>)
    ensures r != []
    decreases |input|
  {
    if input == [] then [got]
    else
      var piece := got + [input[0]];
      if |Escaped(piece, always)| >= max then [piece] + Pieces(input[1..], always, max, [])
      else Pieces(input[1..], always, max, piece)
  }

  function Flatten(pieces: seq<seq<Byte>>): seq<Byte> {
    if pieces == [] then [] else pieces[0] + Flatten(pieces[1..])
  }

  /** One literal for each piece. */
  function Literals(pieces: seq<seq<Byte>>, always: bool): string
    requires pieces != []
  {
    if |pieces| == 1 then Escaped(pieces[0], always)
    else Escaped(pieces[0], always) + (SEPARATOR + Literals(pieces[1..], always))
  }

  lemma EscapedSnoc(piece: seq<Byte>, c: Byte, always: bool)
    ensures Escaped(piece + [c], always) == Escaped(piece, always) + Escape(c, always)
  {
    assert (piece + [c])[..|piece|] == piece;
  }

  lemma Regroup(a: string, b: string, c: string)
    ensures a + (b + c) == (a + b) + c
  {
  }

  lemma LiteralsCons(piece: seq<Byte>, rest: seq<seq<Byte>>, always: bool)
    requires rest != []
    ensures Literals([piece] + rest, always) == Escaped(piece, always) + (SEPARATOR + Literals(rest, always))
  {
    assert ([piece] + rest)[1..] == rest;
  }

  lemma {:induction false} LinesAreLiterals(input: seq<Byte>, always: bool, max: nat, got: seq<Byte>)
    ensures Escaped(got, always) + Lines(input, always, max, |Escaped(got, always)|)
         == Literals(Pieces(input, always, max, got), always)
    decreases |input|
  {
    hide Escape, Escaped, Literals;
    var g := Escaped(got, always);
    if input == [] {
      OneLiteral(got, always);
    } else {
      var e := Escape(input[0], always);
      var piece := got + [input[0]];
      EscapedSnoc(got, input[0], always);
      if |g + e| >= max {
        var rest := Pieces(input[1..], always, max, []);
        LinesAreLiterals(input[1..], always, max, []);
        OneLiteral([], always);
        LiteralsCons(piece, rest, always);
        Regroup([], [], Lines(input[1..], always, max, 0));
        Regroup(g, e, SEPARATOR + Literals(rest, always));
      } else {
        LinesAreLiterals(input[1..], always, max, piece);
        Regroup(g, e, Lines(input[1..], always, max, |g + e|));
      }
    }
  }

  lemma OneLiteral(piece: seq<Byte>, always: bool)
    ensures Literals([piece], always) == Escaped(piece, always) && Escaped([], always) == []
    ensures Escaped(piece, always) + [] == Escaped(piece, always)
  {
  }

  lemma {:induction false} PiecesAreInput(input: seq<Byte>, always: bool, max: nat, got: seq<Byte>)
    ensures Flatten(Pieces(input, always, max, got)) == got + input
    decreases |input|
  {
    if input == [] {
      assert [got][1..] == [] && got + [] == got;
    } else {
      var piece := got + [input[0]];
      assert piece + input[1..] == got + input;
      if |Escaped(piece, always)| >= max {
        PiecesAreInput(input[1..], always, max, []);
        assert ([piece] + Pieces(input[1..], always, max, []))[1..] == Pieces(input[1..], always, max, []);
        assert [] + input[1..] == input[1..];
      } else {
        PiecesAreInput(input[1..], always, max, piece);
      }
    }
  }

  /** No escape is split across literals: the text is a row of literals, each of which holds a
      piece of the input in whole escapes, and the pieces in a row are the input. */
  lemma LiteralsAreWhole(input: seq<Byte>, always: bool, max: nat)
    ensures var p := Pieces(input, always, max, []);
      Lines(input, always, max, 0) == Literals(p, always) && Flatten(p) == input
  {
    LinesAreLiterals(input, always, max, []);
    PiecesAreInput(input, always, max, []);
    assert [] + Lines(input, always, max, 0) == Lines(input, always, max, 0);
    assert [] + input == input;
  }

  ghost predicate LengthAt(p: seq<seq<Byte>>, always: bool, max: nat, i: nat)
    requires i < |p|
  {
    var n := |Escaped(p[i], always)|;
    && n <= max + 4 && (max > 0 ==> n <= max + 3)
    && (i < |p| - 1 ==> n >= max) && (i == |p| - 1 ==> n < max || p[i] == [])
  }

  /** Every literal but the last has the asked length, and at most three characters more. */
  lemma {:induction false} LineLengths(input: seq<Byte>, always: bool, max: nat, got: seq<Byte>, i: nat)
    requires i < |Pieces(input, always, max, got)|
    requires |Escaped(got, always)| < max || got == []
    ensures LengthAt(Pieces(input, always, max, got), always, max, i)
    decreases |input|
  {
    hide Escape;
    if input != [] {
      var piece := got + [input[0]];
      EscapedSnoc(got, input[0], always);
      if |Escaped(piece, always)| >= max {
        var rest := Pieces(input[1..], always, max, []);
        var p := Pieces(input, always, max, got);
        assert p == [piece] + rest;
        if i > 0 {
          LineLengths(input[1..], always, max, [], i - 1);
          assert p[i] == rest[i - 1];
        } else {
          OneLiteral(got, always);
        }
      } else {
        LineLengths(input[1..], always, max, piece, i);
      }
    } else {
      OneLiteral(got, always);
    }
  }

  // ---------------------------------------------------------------- in place

  method WriteOctal(buffer: array<char>, at: nat, c: Byte) returns (next: nat)
    requires at + 4 <= buffer.Length
    modifies buffer
    ensures next == at + 4 && buffer[..next] == old(buffer[..at]) + Octal(c)
  {
    buffer[at] := '\\';
    buffer[at + 1] := Digit(c / 64);
    buffer[at + 2] := Digit(c / 8 % 8);
    buffer[at + 3] := Digit(c % 8);
    next := at + 4;
  }

  method WriteTwo(buffer: array<char>, at: nat, c: char) returns (next: nat)
    requires at + 2 <= buffer.Length
    modifies buffer
    ensures next == at + 2 && buffer[..next] == old(buffer[..at]) + ['\\', c]
  {
    buffer[at] := '\\';
    buffer[at + 1] := c;
    next := at + 2;
  }

  /** The branches of the loop; none writes past four characters. */
  method WriteByte(buffer: array<char>, at: nat, c: Byte, always: bool) returns (next: nat)
    requires at + 4 <= buffer.Length
    modifies buffer
    ensures next == at + |Escape(c, always)| && buffer[..next] == old(buffer[..at]) + Escape(c, always)
  {
    if always {
      next := WriteOctal(buffer, at, c);
    } else if Plain(c) {
      buffer[at] := c as char;
      next := at + 1;
    } else if c == 13 {
      next := WriteTwo(buffer, at, 'r');
    } else if c == 10 {
      next := WriteTwo(buffer, at, 'n');
    } else if c == 9 {
      next := WriteTwo(buffer, at, 't');
    } else if c == 34 {
      next := WriteTwo(buffer, at, '"');
    } else if c == 92 {
      next := WriteTwo(buffer, at, '\\');
    } else {
      next := WriteOctal(buffer, at, c);
    }
  }

  /** The loop of `main`: a line buffer of `max + 4` characters that is written out and started
      afresh when the line is long enough. */
  method Generate(input: seq<Byte>, always: bool, max: nat) returns (out: string, length: nat)
    ensures out == Text(input, always, max) && length == |input|
  {
    hide Escape, Lines;
    var buffer := new char[max + 4];
    var linechar: nat := 0;
    out := "\"";
    length := 0;
    ghost var all := Lines(input, always, max, 0);
    while length < |input|
      invariant 0 <= length <= |input|
      invariant linechar < max || linechar == 0
      invariant linechar + 4 <= buffer.Length
      invariant out + (buffer[..linechar] + Lines(input[length..], always, max, linechar)) == "\"" + all
    {
      ghost var line := buffer[..linechar];
      ghost var e := Escape(input[length], always);
      ghost var flush := linechar + |e| >= max;
      ghost var rest := Lines(input[length + 1..], always, max, if flush then 0 else linechar + |e|);
      LinesFrom(input, length, always, max, linechar);
      linechar := WriteByte(buffer, linechar, input[length], always);
      length := length + 1;
      Regroup(line, e, if flush then SEPARATOR + rest else rest);
      if linechar >= max {
        Flushed(out, line + e, rest);
        out := out + buffer[..linechar] + SEPARATOR;
        linechar := 0;
      }
    }
    NoLines(input[length..], always, max, linechar);
    assert buffer[..linechar] + [] == buffer[..linechar];
    Regroup("\"", all, "\";");
    out := out + buffer[..linechar] + "\";";
  }

  lemma NoLines(input: seq<Byte>, always: bool, max: nat, n: nat)
    requires |input| == 0
    ensures Lines(input, always, max, n) == []
  {
  }

  lemma LinesFrom(input: seq<Byte>, i: nat, always: bool, max: nat, n: nat)
    requires i < |input|
    ensures var e := Escape(input[i], always); var flush := n + |e| >= max;
      var rest := Lines(input[i + 1..], always, max, if flush then 0 else n + |e|);
      Lines(input[i..], always, max, n) == e + (if flush then SEPARATOR + rest else rest)
  {
    hide Escape;
    assert input[i..][1..] == input[i + 1..];
  }

  lemma Flushed(out: string, line: string, rest: string)
    ensures out + (line + (SEPARATOR + rest)) == (out + line + SEPARATOR) + ([] + rest)
  {
    Regroup(out, line, SEPARATOR + rest);
    Regroup(out + line, SEPARATOR, rest);
    assert [] + rest == rest;
  }
}
