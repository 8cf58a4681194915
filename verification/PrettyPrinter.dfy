/** The re-indenter for JSON-like text: it changes nothing but whitespace outside strings, and a second pass changes
    nothing at all. */
module PrettyPrinter {
  import opened Text

  // ---- reading ---------------------------------------------------------------------------------------

  /** Where a reader is: inside a string, and just after a backslash in it. */
  datatype Scan = Scan(inString: bool, escape: bool)

  const OUTSIDE := Scan(false, false)

  function Next(st: Scan, c: char): Scan {
    if st.inString then
      if st.escape then Scan(true, false) else if c == '\\' then Scan(true, true) else if c == '\"' then OUTSIDE else st
    else if c == '\"' then Scan(true, false) else OUTSIDE
  }

  function After(st: Scan, s: string): Scan
    decreases |s|
  {
    if s == [] then st else After(Next(st, s[0]), s[1..])
  }

  /** Text without its whitespace outside strings. */
  function Strip(st: Scan, s: string): string
    decreases |s|
  {
    if s == [] then []
    else (if !st.inString && IsWhitespace(s[0]) then [] else [s[0]]) + Strip(Next(st, s[0]), s[1..])
  }

  // ---- writing ---------------------------------------------------------------------------------------

  function Pad(n: nat): string { if n == 0 then "" else "  " + Pad(n - 1) }

  /** What one character becomes, given the indent before it. */
  function Piece(st: Scan, indent: nat, c: char): string {
    if st.inString || c == '\"' then [c]
    else if c == '{' || c == '[' then [c] + "\n" + Pad(indent + 1)
    else if c == '}' || c == ']' then "\n" + Pad(Deeper(st, indent, c)) + [c]
    else if c == ',' then [c] + "\n" + Pad(indent)
    else if c == ':' then ": "
    else if IsWhitespace(c) then ""
    else [c]
  }

  function Deeper(st: Scan, indent: nat, c: char): nat {
    if st.inString then indent
    else if c == '{' || c == '[' then indent + 1
    else if (c == '}' || c == ']') && indent > 0 then indent - 1
    else indent
  }

  function Format(st: Scan, indent: nat, s: string): string
    decreases |s|
  {
    if s == [] then [] else Piece(st, indent, s[0]) + Format(Next(st, s[0]), Deeper(st, indent, s[0]), s[1..])
  }

  predicate Bracketed(s: string) { s != [] && (s[0] == '{' || s[0] == '[') }

  function Pretty(input: string): string {
    if Bracketed(Trim(input)) then Trim(Format(OUTSIDE, 0, Trim(input))) else input
  }

  /** Two blanks for each level. */
  lemma {:induction false} PadIs(n: nat)
    ensures |Pad(n)| == 2 * n && forall i :: 0 <= i < 2 * n ==> Pad(n)[i] == ' '
  {
    if n > 0 { PadIs(n - 1); }
  }

  /** The layout outside strings: an opening bracket starts a line one level deeper, a closing one stands on its own
      line one level up (never above the first), a comma ends its line, a colon is followed by a blank, and blanks
      are dropped. */
  lemma Layout(n: nat, c: char, s: string)
    requires c != '\"'
    ensures var f := Format(OUTSIDE, n, [c] + s);
      if c == '{' || c == '[' then f == [c] + "\n" + Pad(n + 1) + Format(OUTSIDE, n + 1, s)
      else if c == '}' || c == ']' then
        f == "\n" + Pad(if n == 0 then 0 else n - 1) + [c] + Format(OUTSIDE, if n == 0 then 0 else n - 1, s)
      else if c == ',' then f == [c] + "\n" + Pad(n) + Format(OUTSIDE, n, s)
      else if c == ':' then f == ": " + Format(OUTSIDE, n, s)
      else if IsWhitespace(c) then f == Format(OUTSIDE, n, s)
      else f == [c] + Format(OUTSIDE, n, s)
  {
    hide Format, Pad, IsWhitespace;
    FormatFirst(n, c, s);
  }

  lemma FormatFirst(n: nat, c: char, s: string)
    requires c != '\"'
    ensures Format(OUTSIDE, n, [c] + s) == Piece(OUTSIDE, n, c) + Format(OUTSIDE, Deeper(OUTSIDE, n, c), s)
  {
    assert ([c] + s)[1..] == s;
  }

  /** Strings are copied up to their closing quote, escaped characters included. */
  lemma StringsAreCopied(n: nat, c: char, s: string, escape: bool)
    ensures Format(Scan(true, escape), n, [c] + s) ==
      [c] + Format(if escape then Scan(true, false) else if c == '\\' then Scan(true, true)
                   else if c == '\"' then OUTSIDE else Scan(true, false), n, s)
    ensures Format(OUTSIDE, n, "\"" + s) == "\"" + Format(Scan(true, false), n, s)
  {
    assert ([c] + s)[1..] == s && ("\"" + s)[1..] == s;
  }

  // ---- the loop --------------------------------------------------------------------------------------

  method Repeat(n: nat) returns (r: string)
    ensures r == Pad(n)
  {
    r := "";
    for i := 0 to n
      invariant r == Pad(i)
    {
      PadEnds(i);
      r := r + "  ";
    }
  }

  lemma {:induction false} PadEnds(n: nat)
    ensures Pad(n) + "  " == "  " + Pad(n)
  {
    if n > 0 { PadEnds(n - 1); }
  }

  method PrettyJsonLike(input: string) returns (r: string)
    ensures r == Pretty(input)
  {
    hide Trim, IsWhitespace, Pad;
    var trimmed := Trim(input);
    if !(trimmed != [] && (trimmed[0] == '{' || trimmed[0] == '[')) { return input; }
    var out, inString, escape := "", false, false;
    var indent: nat := 0;
    assert trimmed[0..] == trimmed;
    for i := 0 to |trimmed|
      invariant out + Format(Scan(inString, escape), indent, trimmed[i..]) == Format(OUTSIDE, 0, trimmed)
      invariant !inString ==> !escape
    {
      var ch := trimmed[i];
      ghost var st, before := Scan(inString, escape), out;
      ghost var was: nat := indent;
      assert trimmed[i..][0] == ch && trimmed[i..][1..] == trimmed[i + 1..];
      if inString {
        out := out + [ch];
        if escape {
          escape := false;
        } else if ch == '\\' {
          escape := true;
        } else if ch == '\"' {
          inString := false;
        }
      } else if ch == '\"' {
        inString := true;
        out := out + [ch];
      } else if ch == '{' || ch == '[' {
        indent := indent + 1;
        var pad := Repeat(indent);
        out := out + ([ch] + "\n" + pad);
      } else if ch == '}' || ch == ']' {
        indent := if indent == 0 then 0 else indent - 1;
        var pad := Repeat(indent);
        out := out + ("\n" + pad + [ch]);
      } else if ch == ',' {
        var pad := Repeat(indent);
        out := out + ([ch] + "\n" + pad);
      } else if ch == ':' {
        out := out + ": ";
      } else if !IsWhitespace(ch) {
        out := out + [ch];
      }
      assert Scan(inString, escape) == Next(st, ch) && indent == Deeper(st, was, ch);
      assert out == before + Piece(st, was, ch);
      Regroup(before, Piece(st, was, ch), Format(Next(st, ch), indent, trimmed[i + 1..]));
    }
    assert trimmed[|trimmed|..] == [] && Format(Scan(inString, escape), indent, []) == [] && out + [] == out;
    r := Trim(out);
  }

  lemma Regroup(a: string, b: string, c: string)
    ensures a + (b + c) == (a + b) + c
  {}

  // ---- scanning joined text ----------------------------------------------------------------------------

  lemma {:induction false} AfterJoins(st: Scan, a: string, b: string)
    ensures After(st, a + b) == After(After(st, a), b)
    ensures Strip(st, a + b) == Strip(st, a) + Strip(After(st, a), b)
    decreases |a|
  {
    if a == [] {
      assert a + b == b;
    } else {
      AfterJoins(Next(st, a[0]), a[1..], b);
      assert (a + b)[0] == a[0] && (a + b)[1..] == a[1..] + b;
    }
  }

  lemma {:induction false} BlankOutside(s: string)
    requires Blank(s)
    ensures Strip(OUTSIDE, s) == [] && After(OUTSIDE, s) == OUTSIDE
  {
    if s != [] { BlankOutside(s[1..]); }
  }

  lemma {:induction false} BlankStaysInside(st: Scan, s: string)
    requires Blank(s) && st.inString
    ensures After(st, s).inString
    decreases |s|
  {
    if s != [] { BlankStaysInside(Next(st, s[0]), s[1..]); }
  }

  lemma {:induction false} PadIsBlank(n: nat)
    ensures Blank(Pad(n)) && Blank("\n" + Pad(n)) && Blank(" ")
  {
    if n > 0 { PadIsBlank(n - 1); }
  }

  // ---- formatting changes only whitespace ----------------------------------------------------------------

  lemma BlankAfter(c: char, pad: string)
    requires c in {'{', '[', ',', ':'} && Blank(pad)
    ensures Strip(OUTSIDE, [c] + pad) == [c] && After(OUTSIDE, [c] + pad) == OUTSIDE
  {
    BlankOutside(pad);
    var s := [c] + pad;
    assert s[0] == c && s[1..] == pad;
  }

  lemma BlankBefore(c: char, pad: string)
    requires c in {'}', ']'} && Blank(pad)
    ensures Strip(OUTSIDE, pad + [c]) == [c] && After(OUTSIDE, pad + [c]) == OUTSIDE
  {
    BlankOutside(pad);
    AfterJoins(OUTSIDE, pad, [c]);
    var s := [c];
    assert s[1..] == [];
  }

  /** A piece reads like the character it was made from. */
  lemma PieceReads(st: Scan, indent: nat, c: char)
    requires st.inString || st == OUTSIDE
    ensures After(st, Piece(st, indent, c)) == Next(st, c)
    ensures Strip(st, Piece(st, indent, c)) == Strip(st, [c])
  {
    var one := [c];
    assert one[1..] == [];
    PadIsBlank(indent);
    PadIsBlank(indent + 1);
    PadIsBlank(Deeper(st, indent, c));
    hide Blank, Pad;
    if st.inString || c == '\"' {
    } else if c == '{' || c == '[' {
      assert [c] + "\n" + Pad(indent + 1) == [c] + ("\n" + Pad(indent + 1));
      BlankAfter(c, "\n" + Pad(indent + 1));
    } else if c == '}' || c == ']' {
      BlankBefore(c, "\n" + Pad(Deeper(st, indent, c)));
    } else if c == ',' {
      assert [c] + "\n" + Pad(indent) == [c] + ("\n" + Pad(indent));
      BlankAfter(c, "\n" + Pad(indent));
    } else if c == ':' {
      assert ": " == [c] + " ";
      BlankAfter(c, " ");
    }
  }

  lemma {:induction false} FormatReads(st: Scan, indent: nat, s: string)
    requires st.inString || st == OUTSIDE
    ensures After(st, Format(st, indent, s)) == After(st, s)
    ensures Strip(st, Format(st, indent, s)) == Strip(st, s)
    decreases |s|
  {
    if s != [] {
      var c, piece := s[0], Piece(st, indent, s[0]);
      PieceReads(st, indent, c);
      FormatReads(Next(st, c), Deeper(st, indent, c), s[1..]);
      AfterJoins(st, piece, Format(Next(st, c), Deeper(st, indent, c), s[1..]));
      assert s == [c] + s[1..];
      AfterJoins(st, [c], s[1..]);
      assert [c][1..] == [];
      hide Piece, Strip, IsWhitespace;
    }
  }

  /** Formatting does not see whitespace outside strings. */
  lemma {:induction false} FormatIgnoresBlanks(st: Scan, indent: nat, s: string)
    requires st.inString || st == OUTSIDE
    ensures Format(st, indent, s) == Format(st, indent, Strip(st, s))
    decreases |s|
  {
    if s != [] {
      var c, rest := s[0], Strip(Next(st, s[0]), s[1..]);
      FormatIgnoresBlanks(Next(st, c), Deeper(st, indent, c), s[1..]);
      if !st.inString && IsWhitespace(c) {
        assert Strip(st, s) == rest;
        assert Piece(st, indent, c) == "" && Next(st, c) == st && Deeper(st, indent, c) == indent;
      } else {
        assert Strip(st, s) == [c] + rest && ([c] + rest)[1..] == rest;
      }
    }
  }

  // ---- trimming the result ---------------------------------------------------------------------------------

  /** Text that ends inside a string is formatted up to its own last character. */
  lemma {:induction false} OpenStringEnds(st: Scan, indent: nat, s: string)
    requires (st.inString || st == OUTSIDE) && s != [] && After(st, s).inString
    ensures var o := Format(st, indent, s); o != [] && o[|o| - 1] == s[|s| - 1]
    decreases |s|
  {
    var c, piece := s[0], Piece(st, indent, s[0]);
    if |s| == 1 {
      assert s[1..] == [] && piece == [c];
    } else {
      OpenStringEnds(Next(st, c), Deeper(st, indent, c), s[1..]);
      var tail := Format(Next(st, c), Deeper(st, indent, c), s[1..]);
      hide Piece, Format;
      assert (piece + tail)[|piece + tail| - 1] == tail[|tail| - 1];
    }
  }

  lemma {:induction false} TrimEndSplits(s: string)
    ensures exists w :: Blank(w) && s == TrimEnd(s) + w
  {
    if s != [] && IsWhitespace(s[|s| - 1]) {
      var most := s[..|s| - 1];
      TrimEndSplits(most);
      var w :| Blank(w) && most == TrimEnd(most) + w;
      var more := w + [s[|s| - 1]];
      assert Blank(more) && s == TrimEnd(s) + more;
    } else {
      assert Blank([]) && s == TrimEnd(s) + [];
    }
  }

  /** Trailing blanks removed outside a string were never part of the text. */
  lemma TrimEndReads(o: string)
    requires o != [] && (After(OUTSIDE, o).inString ==> !IsWhitespace(o[|o| - 1]))
    ensures Strip(OUTSIDE, TrimEnd(o)) == Strip(OUTSIDE, o)
  {
    if IsWhitespace(o[|o| - 1]) {
      TrimEndSplits(o);
      var w :| Blank(w) && o == TrimEnd(o) + w;
      var p := TrimEnd(o);
      hide IsWhitespace, TrimEnd, Blank;
      AfterJoins(OUTSIDE, p, w);
      AlwaysProper(OUTSIDE, p);
      if After(OUTSIDE, p).inString {
        BlankStaysInside(After(OUTSIDE, p), w);
      } else {
        BlankOutside(w);
      }
    }
  }

  lemma {:induction false} AlwaysProper(st: Scan, s: string)
    requires st.inString || st == OUTSIDE
    ensures After(st, s).inString || After(st, s) == OUTSIDE
    decreases |s|
  {
    if s != [] { AlwaysProper(Next(st, s[0]), s[1..]); }
  }

  lemma FormatStarts(s: string)
    requires Bracketed(s)
    ensures Bracketed(Format(OUTSIDE, 0, s)) && !IsWhitespace(s[0])
  {
    hide Pad;
    assert Format(OUTSIDE, 0, s)[0] == Piece(OUTSIDE, 0, s[0])[0] == s[0];
  }

  /** The result starts with the same bracket, is trimmed, and is the formatted text without trailing blanks. */
  lemma PrettyShape(t: string)
    requires Bracketed(t)
    ensures var o := Format(OUTSIDE, 0, t);
      Trim(o) == TrimEnd(o) && Bracketed(Trim(o)) && Trimmed(Trim(o))
  {
    var o := Format(OUTSIDE, 0, t);
    FormatStarts(t);
    TrimLaws(o);
    TrimEndShape(o);
    assert TrimStart(o) == o;
    assert TrimEnd(o) != [] && TrimEnd(o)[0] == o[0];
  }

  // ---- the theorems ----------------------------------------------------------------------------------------

  /** Nothing but whitespace outside strings is added or removed: escapes, unbalanced brackets and unterminated
      strings included. */
  lemma PrettyKeepsText(input: string)
    requires Bracketed(Trim(input))
    ensures Strip(OUTSIDE, Pretty(input)) == Strip(OUTSIDE, Trim(input))
  {
    var t := Trim(input);
    var o := Format(OUTSIDE, 0, t);
    PrettyShape(t);
    FormatStarts(t);
    FormatReads(OUTSIDE, 0, t);
    TrimLaws(input);
    hide Trim, Format, IsWhitespace;
    if After(OUTSIDE, o).inString { OpenStringEnds(OUTSIDE, 0, t); }
    TrimEndReads(o);
  }

  /** Formatting twice is formatting once, for every input. */
  lemma PrettyIsIdempotent(input: string)
    ensures Pretty(Pretty(input)) == Pretty(input)
  {
    var t := Trim(input);
    if Bracketed(t) {
      var o := Format(OUTSIDE, 0, t);
      var p := Trim(o);
      PrettyShape(t);
      TrimLaws(p);
      PrettyKeepsText(input);
      hide Trim, Format, Strip, Bracketed;
      FormatIgnoresBlanks(OUTSIDE, 0, p);
      FormatIgnoresBlanks(OUTSIDE, 0, t);
    }
  }
}
