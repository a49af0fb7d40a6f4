/**
 How the generated text looks: which bytes stand for themselves, which characters never occur,
 and where the lines break.
 */
module LiteralForm {
  import opened StringLiteral

  predicate OctalEscape(e: string) {
    |e| == 4 && e[0] == '\\' && '0' <= e[1] <= '7' && '0' <= e[2] <= '7' && '0' <= e[3] <= '7'
  }

  /** A printable byte stands for itself, five control and quoting characters have an escape of two
      characters, all others, and all of them on demand, are written as three octal digits. */
  lemma EscapeForm(c: Byte, always: bool)
    ensures var e := Escape(c, always);
      if always then OctalEscape(e)
      else if c in {9, 10, 13, 34, 92} then |e| == 2 && e[0] == '\\' && !('0' <= e[1] <= '7')
      else if 32 <= c <= 126 && c !in {'?' as int, ':' as int, '%' as int} then |e| == 1 && e[0] as int == c
      else OctalEscape(e)
  {
    assert ('?' as int) == 63 && (':' as int) == 58 && ('%' as int) == 37 && ('"' as int) == 34 && ('\\' as int) == 92;
    if Plain(c) { assert (c as char) as int == c; }
  }

  /** Characters that neither trigraphs nor formats nor editors could take for something else. */
  predicate Harmless(x: char) {
    (' ' <= x <= '~' || x == '\n' || x == '\t') && x !in {'?', ':', '%'}
  }

  /** A line break stands between two literals and is followed by a tabulator. */
  ghost predicate BreakAt(t: string, i: nat) {
    0 < i && i + 2 < |t| && t[i - 1] == '"' && t[i] == '\n' && t[i + 1] == '\t' && t[i + 2] == '"'
  }

  ghost predicate Clean(t: string) {
    && (forall i :: 0 <= i < |t| ==> Harmless(t[i]))
    && (forall i :: 0 <= i < |t| && t[i] == '\n' ==> BreakAt(t, i))
  }

  function Breaks(t: string): nat {
    if t == [] then 0 else Breaks(t[..|t| - 1]) + if t[|t| - 1] == '\n' then 1 else 0
  }

  lemma CleanAppend(a: string, b: string)
    requires Clean(a) && Clean(b)
    ensures Clean(a + b)
  {
    var t := a + b;
    forall i | 0 <= i < |t| && t[i] == '\n' ensures BreakAt(t, i) {
      if i < |a| { assert BreakAt(a, i); } else { assert BreakAt(b, i - |a|); }
    }
  }

  lemma {:induction false} BreaksAppend(a: string, b: string)
    ensures Breaks(a + b) == Breaks(a) + Breaks(b)
    decreases |b|
  {
    if b == [] {
      assert a + b == a;
    } else {
      assert (a + b)[..|a + b| - 1] == a + b[..|b| - 1];
      BreaksAppend(a, b[..|b| - 1]);
    }
  }

  lemma EscapeClean(c: Byte, always: bool)
    ensures Clean(Escape(c, always)) && Breaks(Escape(c, always)) == 0
  {
    var e := Escape(c, always);
    EscapeForm(c, always);
    forall i | 0 <= i < |e| ensures Harmless(e[i]) && e[i] != '\n' { EscapeChar(c, always, i); }
    NoBreaks(e);
  }

  lemma EscapeChar(c: Byte, always: bool, i: nat)
    requires i < |Escape(c, always)|
    ensures Harmless(Escape(c, always)[i]) && Escape(c, always)[i] != '\n'
  {
    EscapeForm(c, always);
    assert ('?' as int) == 63 && (':' as int) == 58 && ('%' as int) == 37 && (' ' as int) == 32 && ('~' as int) == 126;
  }

  lemma {:induction false} NoBreaks(t: string)
    requires forall i :: 0 <= i < |t| ==> t[i] != '\n'
    ensures Breaks(t) == 0
  {
    if t != [] { NoBreaks(t[..|t| - 1]); }
  }

  lemma SeparatorForm()
    ensures Clean(SEPARATOR) && Breaks(SEPARATOR) == 1 && |SEPARATOR| == 4
  {
    assert SEPARATOR[..3] == "\"\n\t" && SEPARATOR[..3][..2] == "\"\n" && SEPARATOR[..2][..1] == "\"" && SEPARATOR[..1][..0] == "";
    assert Breaks("\"") == 0 && Breaks("\"\n") == 1;
    assert Breaks("\"\n\t") == 1;
    assert BreakAt(SEPARATOR, 1);
  }

  lemma {:induction false} LinesClean(input: seq<Byte>, always: bool, max: nat, got: seq<Byte>)
    ensures var t := Lines(input, always, max, |Escaped(got, always)|);
      Clean(t) && Breaks(t) == |Pieces(input, always, max, got)| - 1
    decreases |input|
  {
    hide Escape, Escaped, Clean;
    var n := |Escaped(got, always)|;
    if input == [] {
      NothingClean();
    } else {
      var e := Escape(input[0], always);
      var rest := input[1..];
      EscapeClean(input[0], always);
      EscapedSnoc(got, input[0], always);
      SeparatorForm();
      if n + |e| >= max {
        LinesClean(rest, always, max, []);
        OneLiteral([], always);
        var t := Lines(rest, always, max, 0);
        CleanAppend(SEPARATOR, t);
        BreaksAppend(SEPARATOR, t);
        CleanAppend(e, SEPARATOR + t);
        BreaksAppend(e, SEPARATOR + t);
      } else {
        LinesClean(rest, always, max, got + [input[0]]);
        CleanAppend(e, Lines(rest, always, max, n + |e|));
        BreaksAppend(e, Lines(rest, always, max, n + |e|));
      }
    }
  }

  lemma NothingClean()
    ensures Clean("") && Breaks("") == 0
  {
  }

  /** The whole initializer: harmless characters only, one line for each literal. */
  lemma TextForm(input: seq<Byte>, always: bool, max: nat)
    ensures var t := Text(input, always, max);
      Clean(t) && Breaks(t) == |Pieces(input, always, max, [])| - 1
  {
    hide Lines, Clean, Escaped;
    var l := Lines(input, always, max, 0);
    OneLiteral([], always);
    LinesClean(input, always, max, []);
    Ends();
    CleanAppend(l, "\";");
    BreaksAppend(l, "\";");
    CleanAppend("\"", l + "\";");
    BreaksAppend("\"", l + "\";");
  }

  lemma Ends()
    ensures Clean("\"") && Clean("\";") && Breaks("\"") == 0 && Breaks("\";") == 0
  {
    NoBreaks("\"");
    NoBreaks("\";");
  }
}
