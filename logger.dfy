/**
 * Logger: debug entries kept in memory and printed at the end. Each entry
 * is the time since the logger was made, followed by the message, with
 * the message's rows indented to line up under its first character and
 * wrapped after 100 characters.
 */
module Logging {
  import opened Common

  /** The most message characters a row holds. */
  const RowLength: nat := 100

  /** The characters that end a row of a message. */
  predicate IsNewline(c: char)
  {
    c == '\n' || c == '\r'
  }

  predicate NoNewline(t: string)
  {
    forall i :: 0 <= i < |t| ==> !IsNewline(t[i])
  }

  /** The row counter after character `c`, from `g`: reset by a newline and by a full row. */
  function Next(g: nat, c: char): nat
  {
    if IsNewline(c) then 0 else if g + 1 >= RowLength then 0 else g + 1
  }

  /** The row counter after the characters of `s`, from `g`. */
  function GuardAfter(s: string, g: nat): nat
    decreases |s|
  {
    if s == [] then g else GuardAfter(s[1..], Next(g, s[0]))
  }

  /**
   * What log appends for character `c` with row counter `g`: the
   * character, then the indent after a newline, or a line break and the
   * indent once the row is full.
   */
  function Step(c: char, g: nat, indent: string): string
  {
    [c] + (if IsNewline(c) then indent else if g + 1 >= RowLength then "\n" + indent else [])
  }

  /** The message `s` as log writes it, starting with row counter `g`. */
  function Wrap(s: string, indent: string, g: nat): string
    decreases |s|
  {
    if s == [] then [] else Step(s[0], g, indent) + Wrap(s[1..], indent, Next(g, s[0]))
  }

  /** `t` without its first `n` characters (none left when it is shorter). */
  function Drop(t: string, n: nat): string
  {
    if n <= |t| then t[n..] else []
  }

  /**
   * The message back out of a written one: every character is kept, and
   * the indent after a newline, or the break and indent after a full
   * row, are skipped.
   */
  function Unwrap(t: string, indent: string, g: nat): string
    decreases |t|
  {
    if t == [] then []
    else if IsNewline(t[0]) then [t[0]] + Unwrap(Drop(t, 1 + |indent|), indent, 0)
    else if g + 1 >= RowLength then [t[0]] + Unwrap(Drop(t, 2 + |indent|), indent, 0)
    else [t[0]] + Unwrap(t[1..], indent, g + 1)
  }

  /** Removing what log inserts gives back the message, whatever the indent. */
  lemma {:induction false} UnwrapWrap(s: string, indent: string, g: nat)
    ensures Unwrap(Wrap(s, indent, g), indent, g) == s
    decreases |s|
  {
    if s != [] {
      var rest := Wrap(s[1..], indent, Next(g, s[0]));
      var t := Step(s[0], g, indent) + rest;
      assert t == Wrap(s, indent, g);
      assert t[0] == s[0];
      if IsNewline(s[0]) {
        assert Drop(t, 1 + |indent|) == rest;
      } else if g + 1 >= RowLength {
        assert Drop(t, 2 + |indent|) == rest;
      } else {
        assert t[1..] == rest;
      }
      UnwrapWrap(s[1..], indent, Next(g, s[0]));
      assert s == [s[0]] + s[1..];
    }
  }

  /** Writing one more character appends its Step. */
  lemma {:induction false} WrapSnoc(p: string, c: char, indent: string, g: nat)
    ensures Wrap(p + [c], indent, g) == Wrap(p, indent, g) + Step(c, GuardAfter(p, g), indent)
    ensures GuardAfter(p + [c], g) == Next(GuardAfter(p, g), c)
    decreases |p|
  {
    if p == [] {
      assert [c][1..] == [];
    } else {
      assert (p + [c])[0] == p[0] && (p + [c])[1..] == p[1..] + [c];
      WrapSnoc(p[1..], c, indent, Next(g, p[0]));
    }
  }

  /** How many characters follow the last newline of `t`. */
  function TrailingRun(t: string): nat
    decreases |t|
  {
    if t == [] then 0 else if IsNewline(t[|t| - 1]) then 0 else TrailingRun(t[..|t| - 1]) + 1
  }

  /** The longest row of `t`: the most characters between two newlines. */
  function LongestRun(t: string): nat
    decreases |t|
  {
    if t == [] then 0
    else
      var r := LongestRun(t[..|t| - 1]);
      if r < TrailingRun(t) then TrailingRun(t) else r
  }

  /** Appending newline-free text lengthens the last row. */
  lemma {:induction false} AppendRow(t: string, u: string)
    requires NoNewline(u)
    ensures TrailingRun(t + u) == TrailingRun(t) + |u|
    ensures LongestRun(t + u) == if LongestRun(t) < TrailingRun(t) + |u| then TrailingRun(t) + |u| else LongestRun(t)
    decreases |u|
  {
    if u != [] {
      var u' := u[..|u| - 1];
      assert (t + u)[..|t + u| - 1] == t + u';
      AppendRow(t, u');
    } else {
      assert t + u == t;
    }
  }

  /** Appending a newline starts a new, empty row. */
  lemma AppendBreak(t: string, c: char)
    requires IsNewline(c)
    ensures TrailingRun(t + [c]) == 0 && LongestRun(t + [c]) == LongestRun(t)
  {
    assert (t + [c])[..|t|] == t;
  }

  /**
   * One written character keeps the rows within the indent plus 100
   * characters, with the last row the indent plus the row counter.
   */
  lemma StepRows(t: string, c: char, g: nat, indent: string)
    requires NoNewline(indent) && g < RowLength
    requires TrailingRun(t) == |indent| + g && LongestRun(t) <= |indent| + RowLength
    ensures TrailingRun(t + Step(c, g, indent)) == |indent| + Next(g, c)
    ensures LongestRun(t + Step(c, g, indent)) <= |indent| + RowLength
  {
    if IsNewline(c) {
      AppendBreak(t, c);
      AppendRow(t + [c], indent);
      assert t + Step(c, g, indent) == t + [c] + indent;
    } else {
      AppendRow(t, [c]);
      if g + 1 >= RowLength {
        AppendBreak(t + [c], '\n');
        AppendRow(t + [c] + ['\n'], indent);
        assert t + Step(c, g, indent) == t + [c] + ['\n'] + indent;
      } else {
        assert t + Step(c, g, indent) == t + [c];
      }
    }
  }

  /** Written out from row counter `g`, no row of a message is longer than the indent plus 100. */
  lemma {:induction false} WrapRows(t: string, s: string, indent: string, g: nat)
    requires NoNewline(indent) && g < RowLength
    requires TrailingRun(t) == |indent| + g && LongestRun(t) <= |indent| + RowLength
    ensures TrailingRun(t + Wrap(s, indent, g)) == |indent| + GuardAfter(s, g)
    ensures LongestRun(t + Wrap(s, indent, g)) <= |indent| + RowLength
    decreases |s|
  {
    if s == [] {
      assert t + Wrap(s, indent, g) == t;
    } else {
      var step := Step(s[0], g, indent);
      var w := Wrap(s[1..], indent, Next(g, s[0]));
      var t' := t + step;
      StepRows(t, s[0], g, indent);
      assert Wrap(s, indent, g) == step + w;
      assert t + (step + w) == t' + w;
      WrapRows(t', s[1..], indent, Next(g, s[0]));
    }
  }

  /**
   * An entry, the time prefix followed by the message written under an
   * indent as wide as the prefix, has no row longer than the prefix plus
   * 100 characters.
   */
  lemma EntryRows(timeS: string, s: string)
    requires NoNewline(timeS)
    ensures LongestRun(timeS + Wrap(s, Spaces(|timeS|), 0)) <= |timeS| + RowLength
  {
    AppendRow([], timeS);
    assert [] + timeS == timeS;
    WrapRows(timeS, s, Spaces(|timeS|), 0);
  }

  class Logger {
    var loglist: seq<string>

    /** A logger starts with no entries. */
    constructor ()
      ensures loglist == []
    {
      loglist := [];
    }

    /**
     * log: a null message adds nothing; any other adds one entry, the
     * time prefix `timeS` (the seconds since the logger was made, as
     * "%.3f ") followed by the message written by Wrap.
     */
    method Log(s: Option<string>, timeS: string)
      modifies this
      ensures s.None? ==> loglist == old(loglist)
      ensures s.Some? ==> loglist == old(loglist) + [timeS + Wrap(s.value, Spaces(|timeS|), 0)]
    {
      if s.Some? {
        var msg := s.value;
        var logString := timeS;
        var spaces := "";
        for i := 0 to |timeS|
          invariant spaces == Spaces(i) && loglist == old(loglist)
        {
          spaces := spaces + " ";
          assert spaces == Spaces(i + 1);
        }
        var rowLengthGuard: nat := 0;
        for i := 0 to |msg|
          invariant logString == timeS + Wrap(msg[..i], spaces, 0)
          invariant rowLengthGuard == GuardAfter(msg[..i], 0)
          invariant loglist == old(loglist)
        {
          WrapSnoc(msg[..i], msg[i], spaces, 0);
          assert msg[..i + 1] == msg[..i] + [msg[i]];
          logString := logString + [msg[i]];
          if IsNewline(msg[i]) {
            logString := logString + spaces;
            rowLengthGuard := 0;
          } else {
            rowLengthGuard := rowLengthGuard + 1;
            if rowLengthGuard >= RowLength {
              logString := logString + ['\n'] + spaces;
              rowLengthGuard := 0;
            }
          }
        }
        assert msg[..|msg|] == msg;
        loglist := loglist + [logString];
      }
    }

    /** printLog: the lines printed, every entry between a header and a footer; the entries stay. */
    method PrintLog() returns (lines: seq<string>)
      ensures lines == ["Log begin"] + loglist + ["Log end"]
    {
      lines := ["Log begin"];
      for i := 0 to |loglist|
        invariant lines == ["Log begin"] + loglist[..i]
      {
        lines := lines + [loglist[i]];
        assert loglist[..i + 1] == loglist[..i] + [loglist[i]];
      }
      assert loglist[..|loglist|] == loglist;
      lines := lines + ["Log end"];
    }
  }
}
