/**
 * Line handling for console output: `String.prototype.split('\n')`,
 * `Array.prototype.join`, and the transport's `indent` helper built from
 * them.
 */
module Text {

  /** `s.split('\n')`: the maximal newline-free pieces of `s`, in order. */
  function Split(s: string): (lines: seq<string>)
    ensures |lines| >= 1
  {
    if s == [] then [""]
    else
      var rest := Split(s[1..]);
      if s[0] == '\n' then [""] + rest else [[s[0]] + rest[0]] + rest[1..]
  }

  /** `lines.join(sep)`. */
  function Join(lines: seq<string>, sep: string): string {
    if |lines| == 0 then ""
    else if |lines| == 1 then lines[0]
    else lines[0] + sep + Join(lines[1..], sep)
  }

  function NewlineCount(s: string): nat {
    if s == [] then 0 else (if s[0] == '\n' then 1 else 0) + NewlineCount(s[1..])
  }

  /** Reference definition of "two spaces after every newline", one
      character at a time. */
  function IndentAfterNewlines(s: string): string {
    if s == [] then []
    else (if s[0] == '\n' then "\n  " else [s[0]]) + IndentAfterNewlines(s[1..])
  }

  /** Each line with two leading spaces. */
  function Prefixed(lines: seq<string>): (r: seq<string>)
    ensures |r| == |lines|
    ensures forall i :: 0 <= i < |lines| ==> r[i] == "  " + lines[i]
  {
    if lines == [] then [] else ["  " + lines[0]] + Prefixed(lines[1..])
  }

  /** `indent(str, skipFirstRow)`: an empty string is returned as it is;
      otherwise every line break is followed by two spaces, and so is the
      start of the string unless `skipFirstRow`. */
  function Indent(s: string, skipFirstRow: bool): string {
    if s == "" then s
    else
      var indented := Join(Split(s), "\n  ");
      if skipFirstRow then indented else "  " + indented
  }

  // ---------------------------------------------------------------------
  // split and join

  /** Splitting on newlines and joining back with a newline gives the
      original string, and no piece contains a newline. */
  lemma {:induction false} JoinSplit(s: string)
    ensures Join(Split(s), "\n") == s
    ensures forall i :: 0 <= i < |Split(s)| ==> '\n' !in Split(s)[i]
  {
    if s != [] {
      JoinSplit(s[1..]);
      var rest := Split(s[1..]);
      if s[0] == '\n' {
        assert Split(s) == [""] + rest;
        assert Split(s)[1..] == rest;
      } else {
        JoinConsHead([s[0]], rest[0], rest[1..], "\n");
        assert [rest[0]] + rest[1..] == rest;
        assert s == [s[0]] + s[1..];
      }
    }
  }

  /** There is one more piece than there are newlines. */
  lemma {:induction false} SplitCount(s: string)
    ensures |Split(s)| == NewlineCount(s) + 1
  {
    if s != [] {
      SplitCount(s[1..]);
    }
  }

  lemma JoinConsHead(p: string, line: string, lines: seq<string>, sep: string)
    ensures Join([p + line] + lines, sep) == p + Join([line] + lines, sep)
  {
    if lines != [] {
      assert ([p + line] + lines)[1..] == lines == ([line] + lines)[1..];
    }
  }

  /** A newline-free prefix extends the first piece only. */
  lemma {:induction false} SplitPrefix(p: string, t: string)
    requires '\n' !in p
    ensures Split(p + t) == [p + Split(t)[0]] + Split(t)[1..]
  {
    var lines := Split(t);
    if p == [] {
      assert p + t == t && p + lines[0] == lines[0];
      assert lines == [lines[0]] + lines[1..];
    } else {
      assert p[0] != '\n' && '\n' !in p[1..];
      SplitPrefix(p[1..], t);
      var rest := Split(p[1..] + t);
      assert rest[0] == p[1..] + lines[0] && rest[1..] == lines[1..];
      assert (p + t)[0] == p[0];
      assert (p + t)[1..] == p[1..] + t;
      assert Split(p + t) == [[p[0]] + rest[0]] + rest[1..];
      assert [p[0]] + (p[1..] + lines[0]) == p + lines[0];
    }
  }

  // ---------------------------------------------------------------------
  // indent

  /** Joining the pieces with a newline and two spaces is the same as
      inserting two spaces after every newline. */
  lemma {:induction false} JoinSplitIndents(s: string)
    ensures Join(Split(s), "\n  ") == IndentAfterNewlines(s)
  {
    if s != [] {
      JoinSplitIndents(s[1..]);
      var rest := Split(s[1..]);
      if s[0] == '\n' {
        assert Split(s)[1..] == rest;
      } else {
        JoinConsHead([s[0]], rest[0], rest[1..], "\n  ");
        assert [rest[0]] + rest[1..] == rest;
      }
    }
  }

  /** The pieces of the indented text: the first is unchanged, every other
      one gains two leading spaces. */
  lemma {:induction false} SplitIndentAfterNewlines(s: string)
    ensures Split(IndentAfterNewlines(s)) == [Split(s)[0]] + Prefixed(Split(s)[1..])
  {
    if s != [] {
      SplitIndentAfterNewlines(s[1..]);
      var rest := Split(s[1..]);
      var tail := IndentAfterNewlines(s[1..]);
      SplitPrefix("  ", tail);
      if s[0] == '\n' {
        assert IndentAfterNewlines(s) == "\n" + ("  " + tail);
        assert Split(IndentAfterNewlines(s)) == [""] + Split("  " + tail);
        assert Prefixed(rest) == ["  " + rest[0]] + Prefixed(rest[1..]);
      } else {
        assert IndentAfterNewlines(s) == [s[0]] + tail;
        SplitPrefix([s[0]], tail);
      }
    }
  }

  /** Indenting a non-empty text keeps its number of lines; with
      `skipFirstRow` false every line gains two leading spaces, with it true
      every line but the first does. */
  lemma {:induction false} IndentLines(s: string, skipFirstRow: bool)
    requires s != ""
    ensures |Split(Indent(s, skipFirstRow))| == |Split(s)|
    ensures !skipFirstRow ==> Split(Indent(s, skipFirstRow)) == Prefixed(Split(s))
    ensures skipFirstRow ==>
      Split(Indent(s, skipFirstRow)) == [Split(s)[0]] + Prefixed(Split(s)[1..])
  {
    JoinSplitIndents(s);
    SplitIndentAfterNewlines(s);
    if skipFirstRow {
      assert Indent(s, skipFirstRow) == IndentAfterNewlines(s);
    } else {
      FullIndentLines(s);
    }
  }

  lemma FullIndentLines(s: string)
    requires s != ""
    requires Join(Split(s), "\n  ") == IndentAfterNewlines(s)
    requires Split(IndentAfterNewlines(s)) == [Split(s)[0]] + Prefixed(Split(s)[1..])
    ensures Split(Indent(s, false)) == Prefixed(Split(s))
  {
    var lines := Split(s);
    var indented := IndentAfterNewlines(s);
    assert Indent(s, false) == "  " + indented;
    SplitPrefix("  ", indented);
    assert Split(indented)[0] == lines[0] && Split(indented)[1..] == Prefixed(lines[1..]);
    assert Prefixed(lines) == ["  " + lines[0]] + Prefixed(lines[1..]);
  }

  lemma {:induction false} IndentAfterNewlinesLength(s: string)
    ensures |IndentAfterNewlines(s)| == |s| + 2 * NewlineCount(s)
  {
    if s != [] {
      IndentAfterNewlinesLength(s[1..]);
    }
  }

  /** Two characters are added per newline, and two more at the start when
      the first row is indented too. */
  lemma IndentLength(s: string, skipFirstRow: bool)
    ensures |Indent(s, skipFirstRow)|
         == |s| + 2 * NewlineCount(s) + (if skipFirstRow || s == "" then 0 else 2)
  {
    if s != "" {
      JoinSplitIndents(s);
      IndentAfterNewlinesLength(s);
    }
  }

  lemma {:induction false} IndentAfterNewlinesIdentity(s: string)
    requires '\n' !in s
    ensures IndentAfterNewlines(s) == s
  {
    if s != [] {
      assert s[0] != '\n' && '\n' !in s[1..];
      IndentAfterNewlinesIdentity(s[1..]);
    }
  }

  /** The empty string is left alone whatever the flag; a single line is
      left alone when its first row is skipped and gains two leading spaces
      when it is not. */
  lemma IndentSingleLine(s: string, skipFirstRow: bool)
    requires '\n' !in s
    ensures Indent(s, skipFirstRow) == if skipFirstRow || s == "" then s else "  " + s
  {
    if s != "" {
      JoinSplitIndents(s);
      IndentAfterNewlinesIdentity(s);
    }
  }

  /** Removes the two characters that follow each newline; undoes
      `IndentAfterNewlines`. */
  function Unindent(t: string): string {
    if t == [] then []
    else if t[0] == '\n' && |t| >= 3 then "\n" + Unindent(t[3..])
    else [t[0]] + Unindent(t[1..])
  }

  lemma {:induction false} UnindentIndent(s: string)
    ensures Unindent(IndentAfterNewlines(s)) == s
  {
    if s != [] {
      UnindentIndent(s[1..]);
      var tail := IndentAfterNewlines(s[1..]);
      if s[0] == '\n' {
        assert IndentAfterNewlines(s) == "\n  " + tail;
        assert ("\n  " + tail)[3..] == tail;
      } else {
        assert IndentAfterNewlines(s) == [s[0]] + tail;
        assert ([s[0]] + tail)[1..] == tail;
      }
    }
  }

  /** `indent` loses nothing: for a fixed flag, the input is recovered from
      the output. */
  lemma IndentInvertible(s: string, skipFirstRow: bool)
    ensures var t := Indent(s, skipFirstRow);
      s == if s == "" then t
           else if skipFirstRow then Unindent(t) else Unindent(t[2..])
  {
    if s != "" {
      JoinSplitIndents(s);
      UnindentIndent(s);
    }
  }
}
