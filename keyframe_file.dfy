/**
 * KeyframeFileHandler: the keyframe text format. A file holds one frame
 * per line, "time a0 a1 ... a21" separated by spaces; empty lines and
 * lines starting with "//" are skipped. A file is given as the lines
 * BufferedReader.readLine hands out (None when it cannot be opened);
 * written output is the list of strings passed to FileWriter.write.
 */
module KeyframeFiles {
  import opened Common
  import opened RobotConsts
  import opened Keyframes

  // ---------------------------------------------------------------------
  // Integer.toString and Integer.parseInt
  // ---------------------------------------------------------------------

  predicate IsDigit(c: char)
  {
    '0' <= c <= '9'
  }

  predicate AllDigits(s: string)
  {
    forall i :: 0 <= i < |s| ==> IsDigit(s[i])
  }

  function DigitValue(c: char): nat
    requires IsDigit(c)
  {
    c as int - '0' as int
  }

  function DigitChar(d: nat): (c: char)
    requires d < 10
    ensures IsDigit(c) && DigitValue(c) == d
  {
    ('0' as int + d) as char
  }

  /** The decimal digits of `n`, most significant first, without leading zeros. */
  function Digits(n: nat): (s: string)
    ensures |s| >= 1 && AllDigits(s)
  {
    if n < 10 then [DigitChar(n)] else Digits(n / 10) + [DigitChar(n % 10)]
  }

  /** The number a string of decimal digits stands for. */
  function DigitsValue(s: string): nat
    requires AllDigits(s)
  {
    if s == [] then 0 else DigitsValue(s[..|s| - 1]) * 10 + DigitValue(s[|s| - 1])
  }

  /** Integer.toString (and StringBuilder.append(int)): a minus sign for negatives, then the digits. */
  function IntToString(n: int): string
  {
    if n < 0 then "-" + Digits(-n) else Digits(n)
  }

  /** What toString prints: a digit or '-' first, then only digits. */
  lemma IntToStringShape(n: int)
    ensures var s := IntToString(n);
            |s| >= 1 && (IsDigit(s[0]) || s[0] == '-') && AllDigits(s[1..])
  {
    if n < 0 {
      assert ("-" + Digits(-n))[1..] == Digits(-n);
    } else {
      var s := Digits(n);
      assert forall i :: 0 <= i < |s[1..]| ==> s[1..][i] == s[i + 1];
    }
  }

  /**
   * Integer.parseInt: an optional '-' or '+', then at least one decimal
   * digit, the value within int range; None where it throws
   * NumberFormatException.
   */
  function ParseInt(s: string): Option<Int32>
  {
    if |s| == 0 then None
    else
      var digits := if s[0] == '-' || s[0] == '+' then s[1..] else s;
      if |digits| == 0 || !AllDigits(digits) then None
      else
        var n: int := DigitsValue(digits);
        var v := if s[0] == '-' then -n else n;
        if MinInt <= v <= MaxInt then Some(v) else None
  }

  lemma {:induction false} DigitsValueOfDigits(n: nat)
    ensures DigitsValue(Digits(n)) == n
  {
    if n >= 10 {
      DigitsValueOfDigits(n / 10);
      var s := Digits(n / 10) + [DigitChar(n % 10)];
      assert s[..|s| - 1] == Digits(n / 10);
    }
  }

  /** parseInt reads back every int that toString prints. */
  lemma ParseIntToString(t: Int32)
    ensures ParseInt(IntToString(t)) == Some(t)
  {
    if t < 0 {
      ParseNegative(-(t as int));
    } else {
      ParseNonNegative(t);
    }
  }

  lemma ParseNonNegative(n: nat)
    requires n <= MaxInt
    ensures ParseInt(Digits(n)) == Some(n)
  {
    var s := Digits(n);
    DigitsValueOfDigits(n);
    assert IsDigit(s[0]);
  }

  lemma ParseNegative(n: nat)
    requires 0 < n <= -MinInt
    ensures ParseInt("-" + Digits(n)).Some? && ParseInt("-" + Digits(n)).value == -(n as int)
  {
    var s := "-" + Digits(n);
    DigitsValueOfDigits(n);
    assert s[0] == '-' && s[1..] == Digits(n);
  }

  // ---------------------------------------------------------------------
  // String.split(" ")
  // ---------------------------------------------------------------------

  /** The pieces between single spaces, empty pieces included. */
  function Pieces(s: string): (ps: seq<string>)
    ensures |ps| >= 1
  {
    if s == "" then [""]
    else
      var rest := Pieces(s[1..]);
      if s[0] == ' ' then [""] + rest else [[s[0]] + rest[0]] + rest[1..]
  }

  /** The list without its trailing empty strings. */
  function DropTrailingEmpty(ps: seq<string>): seq<string>
  {
    if ps == [] || ps[|ps| - 1] != "" then ps else DropTrailingEmpty(ps[..|ps| - 1])
  }

  /**
   * String.split(" "): the pieces between single spaces with trailing
   * empty pieces dropped, so a line of spaces gives no piece at all; a
   * string without a space (the empty string included) gives itself.
   */
  function Split(s: string): seq<string>
  {
    if ' ' !in s then [s] else DropTrailingEmpty(Pieces(s))
  }

  lemma {:induction false} PiecesOfWord(w: string)
    requires ' ' !in w
    ensures Pieces(w) == [w]
  {
    if w != "" {
      PiecesOfWord(w[1..]);
      assert [w[0]] + w[1..] == w;
    }
  }

  /** Splitting at a space splits the two sides independently. */
  lemma {:induction false} PiecesAppend(x: string, y: string)
    ensures Pieces(x + " " + y) == Pieces(x) + Pieces(y)
  {
    var z := x + " " + y;
    if x == "" {
      assert z[0] == ' ' && z[1..] == y;
    } else {
      assert z[0] == x[0] && z[1..] == x[1..] + " " + y;
      PiecesAppend(x[1..], y);
    }
  }

  // ---------------------------------------------------------------------
  // getFrame
  // ---------------------------------------------------------------------

  /**
   * The angles getFrame holds after the angle tokens tokens[..k]: empty
   * tokens are skipped, tokens after the 22nd angle are not looked at,
   * and None once parseDouble has thrown.
   */
  function TakeAngles(parse: NumberReader, tokens: seq<string>, k: nat): (r: Option<seq<real>>)
    requires k <= |tokens|
    ensures r.Some? ==> |r.value| <= JointsCount
  {
    if k == 0 then Some([])
    else
      var prev := TakeAngles(parse, tokens, k - 1);
      if prev.None? || |tokens[k - 1]| == 0 || |prev.value| >= JointsCount then prev
      else
        match parse(tokens[k - 1])
        case None => None
        case Some(v) => Some(prev.value + [v])
  }

  /** `n` zero angles, the default of a new double array. */
  function Zeros(n: nat): seq<real>
  {
    seq(n, i => 0.0)
  }

  /**
   * What getFrame makes of a line: the first token parsed as the int
   * transition time, the angles from the rest with 0.0 for joints the line
   * gives no value; None where it throws (no token at all, a bad time, a
   * bad angle among the first 22).
   */
  function FrameSpec(parse: NumberReader, line: string): (r: Option<FrameData>)
    ensures r.Some? ==> |r.value.angles| == JointsCount
  {
    var tokens := Split(line);
    if |tokens| == 0 then None
    else
      match ParseInt(tokens[0])
      case None => None
      case Some(t) =>
        match TakeAngles(parse, tokens[1..], |tokens| - 1)
        case None => None
        case Some(a) => Some(FrameData(t, a + Zeros(JointsCount - |a|)))
  }

  lemma {:induction false} TakeAnglesFailureStays(parse: NumberReader, tokens: seq<string>, k: nat, m: nat)
    requires k <= m <= |tokens| && TakeAngles(parse, tokens, k).None?
    ensures TakeAngles(parse, tokens, m).None?
    decreases m - k
  {
    if k < m {
      TakeAnglesFailureStays(parse, tokens, k + 1, m);
    }
  }

  /**
   * getFrame: a fresh keyframe with its own fresh 22-entry array holding
   * what FrameSpec says; None where an exception escapes.
   */
  method GetFrame(parse: NumberReader, line: string) returns (frame: Option<Keyframe>)
    ensures frame.None? <==> FrameSpec(parse, line).None?
    ensures frame.Some? ==> fresh(frame.value) && fresh(frame.value.angles) &&
                            frame.value.angles.Length == JointsCount &&
                            Content(frame.value) == FrameSpec(parse, line).value
  {
    var angleDoubles := new real[JointsCount](i => 0.0);
    var valueStrings := Split(line);
    if |valueStrings| == 0 {
      // valueStrings[0] throws
      return None;
    }
    var transitionTime := ParseInt(valueStrings[0]);
    if transitionTime.None? {
      return None;
    }
    var thrown := FillAngles(parse, valueStrings, angleDoubles);
    if thrown {
      return None;
    }
    var kf := new Keyframe(transitionTime.value, angleDoubles);
    frame := Some(kf);
  }

  /**
   * The angle loop of getFrame over valueStrings[1..]: the angles parsed
   * into the zeroed array, or true when parseDouble throws.
   */
  method FillAngles(parse: NumberReader, valueStrings: seq<string>, angleDoubles: array<real>) returns (thrown: bool)
    requires |valueStrings| >= 1 && angleDoubles.Length == JointsCount
    requires forall j :: 0 <= j < JointsCount ==> angleDoubles[j] == 0.0
    modifies angleDoubles
    ensures var r := TakeAngles(parse, valueStrings[1..], |valueStrings| - 1);
            (thrown <==> r.None?) &&
            (r.Some? ==> angleDoubles[..] == r.value + Zeros(JointsCount - |r.value|))
  {
    var jointNum := 0;
    ghost var rest := valueStrings[1..];
    for i := 1 to |valueStrings|
      invariant jointNum <= JointsCount
      invariant TakeAngles(parse, rest, i - 1) == Some(angleDoubles[..jointNum])
      invariant forall j :: jointNum <= j < JointsCount ==> angleDoubles[j] == 0.0
    {
      assert rest[i - 1] == valueStrings[i];
      ghost var taken := angleDoubles[..jointNum];
      if |valueStrings[i]| > 0 {
        if jointNum < angleDoubles.Length {
          var v := parse(valueStrings[i]);
          if v.None? {
            TakeAnglesFailureStays(parse, rest, i, |rest|);
            return true;
          }
          angleDoubles[jointNum] := v.value;
          jointNum := jointNum + 1;
          assert angleDoubles[..jointNum] == taken + [v.value];
        }
      }
    }
    assert angleDoubles[..] == angleDoubles[..jointNum] + Zeros(JointsCount - jointNum);
    return false;
  }

  // ---------------------------------------------------------------------
  // The angles a line yields, by an independent definition
  // ---------------------------------------------------------------------

  /** The non-empty tokens, in order. */
  function NonEmpty(tokens: seq<string>): seq<string>
  {
    if tokens == [] then []
    else NonEmpty(tokens[..|tokens| - 1]) + if tokens[|tokens| - 1] == "" then [] else [tokens[|tokens| - 1]]
  }

  /** Every token parsed, or None if one of them does not parse. */
  function ParseAll(parse: NumberReader, tokens: seq<string>): (r: Option<seq<real>>)
    ensures r.Some? ==> |r.value| == |tokens|
  {
    if tokens == [] then Some([])
    else
      match ParseAll(parse, tokens[..|tokens| - 1])
      case None => None
      case Some(a) =>
        match parse(tokens[|tokens| - 1])
        case None => None
        case Some(v) => Some(a + [v])
  }

  function Min(a: nat, b: nat): nat
  {
    if a <= b then a else b
  }

  /**
   * The angles getFrame takes are the first 22 non-empty tokens, parsed;
   * later tokens are ignored, even ones that would not parse.
   */
  lemma {:induction false} TakeAnglesFirst22(parse: NumberReader, tokens: seq<string>, k: nat)
    requires k <= |tokens|
    ensures var ne := NonEmpty(tokens[..k]);
            TakeAngles(parse, tokens, k) == ParseAll(parse, ne[..Min(|ne|, JointsCount)])
  {
    if k > 0 {
      TakeAnglesFirst22(parse, tokens, k - 1);
      var prefix := tokens[..k - 1];
      assert tokens[..k][..k - 1] == prefix;
      var ne := NonEmpty(prefix);
      var x := tokens[k - 1];
      if x != "" && |ne| < JointsCount {
        assert NonEmpty(tokens[..k]) == ne + [x];
        assert (ne + [x])[..Min(|ne| + 1, JointsCount)] == ne + [x];
        assert (ne + [x])[..|ne|] == ne;
        assert ne[..Min(|ne|, JointsCount)] == ne;
      } else if x != "" {
        assert NonEmpty(tokens[..k]) == ne + [x];
        assert (ne + [x])[..JointsCount] == ne[..JointsCount];
      } else {
        assert NonEmpty(tokens[..k]) == ne;
      }
    }
  }

  // ---------------------------------------------------------------------
  // getSequenceFromFile
  // ---------------------------------------------------------------------

  /** A line that becomes a frame: non-empty and not starting with "//". */
  predicate IsFrameLine(line: string)
  {
    |line| > 0 && !(|line| >= 2 && line[..2] == "//")
  }

  /** The frames read so far and whether an exception has ended the reading. */
  datatype ReadState = ReadState(frames: seq<FrameData>, stopped: bool)

  /** getFrame as a function of the line, for the number reader `parse`. */
  function FrameReader(parse: NumberReader): string -> Option<FrameData>
  {
    line => FrameSpec(parse, line)
  }

  /**
   * What reading lines[..k] yields, where `frameOf` says what getFrame
   * makes of a line (None where it throws).
   */
  function Reading(frameOf: string -> Option<FrameData>, lines: seq<string>, k: nat): ReadState
    requires k <= |lines|
  {
    if k == 0 then ReadState([], false)
    else
      var prev := Reading(frameOf, lines, k - 1);
      if prev.stopped || !IsFrameLine(lines[k - 1]) then prev
      else
        match frameOf(lines[k - 1])
        case None => ReadState(prev.frames, true)
        case Some(d) => ReadState(prev.frames + [d], false)
  }

  /** Once an exception has ended the reading, later lines add nothing. */
  lemma {:induction false} ReadingStopStays(frameOf: string -> Option<FrameData>, lines: seq<string>, k: nat, m: nat)
    requires k <= m <= |lines| && Reading(frameOf, lines, k).stopped
    ensures Reading(frameOf, lines, m) == Reading(frameOf, lines, k)
  {
    if k < m {
      ReadingStopStays(frameOf, lines, k, m - 1);
    }
  }

  /**
   * getSequenceFromFile: a new sequence, cursor at 0, holding one fresh
   * frame per frame line in file order; the first exception ends the
   * reading and the frames read before it are kept. A file that cannot
   * be opened gives an empty sequence.
   */
  method GetSequenceFromFile(parse: NumberReader, file: Option<seq<string>>) returns (ks: KeyframeSequence)
    ensures fresh(ks) && ks.Valid() && ks.FullFrames() && ks.nextFrameNumber == 0
    ensures forall f :: f in ks.sequence ==> fresh(f.angles)
    ensures ks.Frames() == if file.None? then [] else Reading(FrameReader(parse), file.value, |file.value|).frames
  {
    ks := new KeyframeSequence();
    if file.None? {
      return;
    }
    ReadFrameLines(parse, ks, file.value);
  }

  /** The reading loop of getSequenceFromFile, over the lines of an opened file. */
  method ReadFrameLines(parse: NumberReader, ks: KeyframeSequence, lines: seq<string>)
    requires ks.Valid() && ks.sequence == []
    modifies ks`sequence
    ensures ks.Valid() && ks.FullFrames()
    ensures forall f :: f in ks.sequence ==> fresh(f.angles)
    ensures FramesOf(ks.sequence) == Reading(FrameReader(parse), lines, |lines|).frames
  {
    for i := 0 to |lines|
      invariant ks.Valid() && ks.FullFrames()
      invariant forall f :: f in ks.sequence ==> fresh(f.angles)
      invariant Reading(FrameReader(parse), lines, i) == ReadState(FramesOf(ks.sequence), false)
    {
      var stopped := ReadLine(parse, ks, lines, i);
      if stopped {
        return;
      }
    }
  }

  /** One pass of the reading loop: line i is skipped, or read as a frame line. */
  method ReadLine(parse: NumberReader, ks: KeyframeSequence, lines: seq<string>, i: nat) returns (stopped: bool)
    requires i < |lines| && ks.Valid() && ks.FullFrames()
    requires Reading(FrameReader(parse), lines, i) == ReadState(FramesOf(ks.sequence), false)
    modifies ks`sequence
    ensures ks.Valid() && ks.FullFrames()
    ensures forall f :: f in ks.sequence ==> f in old(ks.sequence) || fresh(f.angles)
    ensures !stopped ==> Reading(FrameReader(parse), lines, i + 1) == ReadState(FramesOf(ks.sequence), false)
    ensures stopped ==> Reading(FrameReader(parse), lines, |lines|) == ReadState(FramesOf(ks.sequence), true)
  {
    if !IsFrameLine(lines[i]) {
      return false;
    }
    stopped := ReadFrameLine(parse, ks, lines[i]);
    if stopped {
      ReadingStopStays(FrameReader(parse), lines, i + 1, |lines|);
    }
  }

  /** The body of the reading loop for a frame line: its frame appended, or true when getFrame throws. */
  method ReadFrameLine(parse: NumberReader, ks: KeyframeSequence, line: string) returns (thrown: bool)
    requires ks.Valid() && ks.FullFrames()
    modifies ks`sequence
    ensures ks.Valid() && ks.FullFrames()
    ensures forall f :: f in ks.sequence ==> f in old(ks.sequence) || fresh(f.angles)
    ensures thrown <==> FrameSpec(parse, line).None?
    ensures thrown ==> ks.sequence == old(ks.sequence)
    ensures !thrown ==> FramesOf(ks.sequence) == old(FramesOf(ks.sequence)) + [FrameSpec(parse, line).value]
  {
    ghost var before := FramesOf(ks.sequence);
    var frame := GetFrame(parse, line);
    if frame.None? {
      return true;
    }
    assert FramesOf(ks.sequence) == before;
    FramesOfSnoc(ks.sequence, frame.value);
    ks.AddFrame(frame.value);
    return false;
  }

  /** The frame lines among lines, in order. */
  function FrameLines(lines: seq<string>): (r: seq<string>)
    ensures forall i :: 0 <= i < |r| ==> r[i] in lines && IsFrameLine(r[i])
  {
    if lines == [] then []
    else FrameLines(lines[..|lines| - 1]) + if IsFrameLine(lines[|lines| - 1]) then [lines[|lines| - 1]] else []
  }

  /**
   * When every frame line parses, nothing stops the reading and the frames
   * are exactly the frame lines' frames, one each, in order.
   */
  lemma {:induction false} ReadingAllFrameLines(frameOf: string -> Option<FrameData>, lines: seq<string>, k: nat)
    requires k <= |lines|
    requires forall l :: l in lines && IsFrameLine(l) ==> frameOf(l).Some?
    ensures var r := Reading(frameOf, lines, k);
            var fl := FrameLines(lines[..k]);
            !r.stopped && |r.frames| == |fl| &&
            forall i :: 0 <= i < |fl| ==> r.frames[i] == frameOf(fl[i]).value
  {
    if k > 0 {
      ReadingAllFrameLines(frameOf, lines, k - 1);
      assert lines[..k][..k - 1] == lines[..k - 1];
    }
  }

  // ---------------------------------------------------------------------
  // writeSequenceToFile
  // ---------------------------------------------------------------------

  /** The transition time, then " " + angle for each of the angles 0..n-1. */
  function LineText(show: real -> string, time: Int32, angles: seq<real>, n: nat): string
    requires n <= |angles|
  {
    if n == 0 then IntToString(time) else LineText(show, time, angles, n - 1) + " " + show(angles[n - 1])
  }

  /** The line written for a frame, without its "\n": the time, then the 22 angles. */
  function FrameText(show: real -> string, d: FrameData): string
    requires |d.angles| >= JointsCount
  {
    LineText(show, d.time, d.angles, JointsCount)
  }

  /** The writes so far and whether getAngle has thrown (the rest is then skipped). */
  datatype WriteState = WriteState(writes: seq<string>, failed: bool)

  /**
   * What writeSequenceToFile writes for the first n of the frames ds, in
   * order: one write per frame, ending at the first frame with fewer than
   * 22 angles.
   */
  function Writing(show: real -> string, ds: seq<FrameData>, n: nat): WriteState
    requires n <= |ds|
  {
    if n == 0 then WriteState([], false)
    else
      var prev := Writing(show, ds, n - 1);
      if prev.failed then prev
      else if |ds[n - 1].angles| < JointsCount then WriteState(prev.writes, true)
      else WriteState(prev.writes + [FrameText(show, ds[n - 1]) + "\n"], false)
  }

  /** Once getAngle has thrown, later frames add nothing. */
  lemma {:induction false} WritingFailureStays(show: real -> string, ds: seq<FrameData>, k: nat, m: nat)
    requires k <= m <= |ds| && Writing(show, ds, k).failed
    ensures Writing(show, ds, m) == Writing(show, ds, k)
  {
    if k < m {
      WritingFailureStays(show, ds, k, m - 1);
    }
  }

  /** The text built for one frame; None when getAngle throws. */
  method BuildLine(show: real -> string, kf: Keyframe) returns (line: Option<string>)
    ensures line == if kf.angles.Length < JointsCount then None
                    else Some(FrameText(show, Content(kf)) + "\n")
  {
    var sb := IntToString(kf.GetTransitionTime());
    for i := 0 to JointsCount
      invariant i <= kf.angles.Length
      invariant sb == LineText(show, kf.transitionTime, kf.angles[..], i)
    {
      if i == kf.angles.Length {
        return None;
      }
      var angle := show(kf.GetAngle(i));
      sb := sb + " " + angle;
    }
    line := Some(sb + "\n");
  }

  /**
   * writeSequenceToFile: the frames from the cursor on, one line each,
   * until getNextFrame gives null, which leaves the cursor at 0. A frame
   * with fewer than 22 angles throws, the exception is caught, and the
   * cursor stays just past that frame.
   */
  method WriteSequenceToFile(show: real -> string, ks: KeyframeSequence) returns (writes: seq<string>)
    requires ks.Valid()
    modifies ks`nextFrameNumber
    ensures ks.Valid()
    ensures var ds := old(FramesOf(ks.sequence)[ks.nextFrameNumber..]);
            var w := Writing(show, ds, |ds|);
            writes == w.writes &&
            ks.nextFrameNumber == if w.failed then old(ks.nextFrameNumber) + |w.writes| + 1 else 0
  {
    ghost var ds := FramesOf(ks.sequence)[ks.nextFrameNumber..];
    writes := WriteFrames(show, ks, ds);
  }

  /** The loop of writeSequenceToFile, where ds are the values of the frames from the cursor on. */
  method WriteFrames(show: real -> string, ks: KeyframeSequence, ghost ds: seq<FrameData>) returns (writes: seq<string>)
    requires ks.Valid() && ds == FramesOf(ks.sequence)[ks.nextFrameNumber..]
    modifies ks`nextFrameNumber
    ensures ks.Valid()
    ensures writes == Writing(show, ds, |ds|).writes
    ensures ks.nextFrameNumber == if Writing(show, ds, |ds|).failed then old(ks.nextFrameNumber) + |writes| + 1 else 0
  {
    writes := [];
    ghost var c0 := ks.nextFrameNumber;
    FramesOfAll(ks.sequence);
    ghost var j := 0;
    var kf := ks.GetNextFrame();
    while kf != null
      invariant ks.Valid()
      invariant c0 + j <= |ks.sequence| && |ds| == |ks.sequence| - c0
      invariant kf != null ==> ks.nextFrameNumber == c0 + j + 1 && kf == ks.sequence[c0 + j]
      invariant kf == null ==> ks.nextFrameNumber == 0 && c0 + j == |ks.sequence|
      invariant Writing(show, ds, j) == WriteState(writes, false) && |writes| == j
      invariant forall k {:trigger Content(ks.sequence[k])} :: c0 + j <= k < |ks.sequence| ==> ds[k - c0] == Content(ks.sequence[k])
      decreases if kf == null then 0 else |ks.sequence| - ks.nextFrameNumber + 1
    {
      var failed;
      failed, writes, kf := WriteNext(show, ks, kf, ds, c0, j, writes);
      if failed {
        WritingFailureStays(show, ds, j + 1, |ds|);
        return;
      }
      j := j + 1;
    }
  }

  /**
   * One pass of the loop of writeSequenceToFile on frame j, which is kf:
   * its line written, and the next frame fetched; or the failure.
   */
  method WriteNext(show: real -> string, ks: KeyframeSequence, kf: Keyframe, ghost ds: seq<FrameData>,
                   ghost c0: nat, ghost j: nat, writes: seq<string>)
    returns (failed: bool, writes': seq<string>, next: Keyframe?)
    requires ks.Valid() && c0 + j < |ks.sequence| && |ds| == |ks.sequence| - c0
    requires ks.nextFrameNumber == c0 + j + 1 && kf == ks.sequence[c0 + j]
    requires forall k {:trigger Content(ks.sequence[k])} :: c0 + j <= k < |ks.sequence| ==> ds[k - c0] == Content(ks.sequence[k])
    requires Writing(show, ds, j) == WriteState(writes, false)
    modifies ks`nextFrameNumber
    ensures ks.Valid()
    ensures failed ==> Writing(show, ds, j + 1) == WriteState(writes, true) && writes' == writes &&
                       ks.nextFrameNumber == old(ks.nextFrameNumber)
    ensures !failed ==> Writing(show, ds, j + 1) == WriteState(writes', false) && |writes'| == |writes| + 1
    ensures !failed && next != null ==> ks.nextFrameNumber == c0 + j + 2 && next == ks.sequence[c0 + j + 1]
    ensures !failed && next == null ==> ks.nextFrameNumber == 0 && c0 + j + 1 == |ks.sequence|
    ensures forall k {:trigger Content(ks.sequence[k])} :: c0 + j + 1 <= k < |ks.sequence| ==> ds[k - c0] == Content(ks.sequence[k])
  {
    var line := WriteFrame(show, kf, ds, j, writes);
    if line.None? {
      return true, writes, null;
    }
    writes' := writes + [line.value];
    next := ks.GetNextFrame();
    failed := false;
  }

  /** The loop body of writeSequenceToFile for frame j, which is kf: what writing it adds. */
  method WriteFrame(show: real -> string, kf: Keyframe, ghost ds: seq<FrameData>, ghost j: nat, ghost writes: seq<string>)
    returns (line: Option<string>)
    requires j < |ds| && ds[j] == Content(kf) && Writing(show, ds, j) == WriteState(writes, false)
    ensures Writing(show, ds, j + 1) ==
            if line.None? then WriteState(writes, true) else WriteState(writes + [line.value], false)
  {
    line := BuildLine(show, kf);
  }

  // ---------------------------------------------------------------------
  // Reading back what was written
  // ---------------------------------------------------------------------

  /** A printed number that survives the line format: non-empty, no space, no line break. */
  predicate PrintableNumber(s: string)
  {
    |s| > 0 && ' ' !in s && '\n' !in s && '\r' !in s
  }

  lemma {:induction false} FramePieces(show: real -> string, d: FrameData, n: nat)
    requires n <= |d.angles|
    requires forall x :: PrintableNumber(show(x))
    ensures Pieces(LineText(show, d.time, d.angles, n)) ==
            [IntToString(d.time)] + seq(n, i requires 0 <= i < n => show(d.angles[i]))
  {
    var head := IntToString(d.time);
    IntToStringShape(d.time);
    if n == 0 {
      assert ' ' !in head by {
        forall i | 0 <= i < |head| ensures head[i] != ' ' {
          if i > 0 {
            assert head[1..][i - 1] == head[i];
          }
        }
      }
      PiecesOfWord(head);
    } else {
      FramePieces(show, d, n - 1);
      var s := show(d.angles[n - 1]);
      PiecesAppend(LineText(show, d.time, d.angles, n - 1), s);
      PiecesOfWord(s);
    }
  }

  lemma {:induction false} TakeShownAngles(parse: NumberReader, show: real -> string, angles: seq<real>, k: nat)
    requires k <= JointsCount <= |angles|
    requires forall x :: parse(show(x)) == Some(x)
    requires forall x :: PrintableNumber(show(x))
    ensures TakeAngles(parse, seq(JointsCount, i requires 0 <= i < JointsCount => show(angles[i])), k) == Some(angles[..k])
  {
    if k > 0 {
      TakeShownAngles(parse, show, angles, k - 1);
      assert angles[..k] == angles[..k - 1] + [angles[k - 1]];
    }
  }

  /** A line starting with a digit or '-' is a frame line. */
  lemma NumberLineIsFrameLine(line: string)
    requires |line| > 0 && (IsDigit(line[0]) || line[0] == '-')
    ensures IsFrameLine(line)
  {
    if |line| >= 2 {
      assert line[..2][0] == line[0];
    }
  }

  /** A line starts with the first character of the printed transition time. */
  lemma {:induction false} LineTextStart(show: real -> string, time: Int32, angles: seq<real>, n: nat)
    requires n <= |angles|
    ensures |LineText(show, time, angles, n)| > 0 && LineText(show, time, angles, n)[0] == IntToString(time)[0]
  {
    IntToStringShape(time);
    if n > 0 {
      LineTextStart(show, time, angles, n - 1);
    }
  }

  /** A written line splits into the time and the 22 printed angles. */
  lemma FrameTextSplit(show: real -> string, d: FrameData)
    requires |d.angles| >= JointsCount
    requires forall x :: PrintableNumber(show(x))
    ensures Split(FrameText(show, d)) ==
            [IntToString(d.time)] + seq(JointsCount, i requires 0 <= i < JointsCount => show(d.angles[i]))
  {
    var line := FrameText(show, d);
    FramePieces(show, d, JointsCount);
    assert ' ' in line by {
      var s := LineText(show, d.time, d.angles, JointsCount - 1);
      assert line == s + " " + show(d.angles[JointsCount - 1]);
      assert line[|s|] == ' ';
    }
  }

  /** A written line reads back as the frame's time and its first 22 angles. */
  lemma FrameReadBack(parse: NumberReader, show: real -> string, d: FrameData)
    requires |d.angles| >= JointsCount
    requires forall x :: parse(show(x)) == Some(x)
    requires forall x :: PrintableNumber(show(x))
    ensures IsFrameLine(FrameText(show, d))
    ensures FrameSpec(parse, FrameText(show, d)) == Some(FrameData(d.time, d.angles[..JointsCount]))
  {
    var line := FrameText(show, d);
    IntToStringShape(d.time);
    LineTextStart(show, d.time, d.angles, JointsCount);
    assert line[0] == IntToString(d.time)[0];
    NumberLineIsFrameLine(line);
    var shown := seq(JointsCount, i requires 0 <= i < JointsCount => show(d.angles[i]));
    FrameTextSplit(show, d);
    assert Split(line)[1..] == shown;
    ParseIntToString(d.time);
    TakeShownAngles(parse, show, d.angles, JointsCount);
    assert d.angles[..JointsCount] + Zeros(0) == d.angles[..JointsCount];
  }

  /** The lines written for frames that all have 22 or more angles, without their "\n". */
  function FrameTexts(show: real -> string, ds: seq<FrameData>): (ls: seq<string>)
    requires forall i :: 0 <= i < |ds| ==> |ds[i].angles| >= JointsCount
    ensures |ls| == |ds|
  {
    if ds == [] then [] else FrameTexts(show, ds[..|ds| - 1]) + [FrameText(show, ds[|ds| - 1])]
  }

  /** Each line followed by "\n". */
  function Terminated(ls: seq<string>): (ws: seq<string>)
    ensures |ws| == |ls| && forall i :: 0 <= i < |ls| ==> ws[i] == ls[i] + "\n"
  {
    if ls == [] then [] else Terminated(ls[..|ls| - 1]) + [ls[|ls| - 1] + "\n"]
  }

  /** The frames with their angles cut to the first 22. */
  function FirstAngles(ds: seq<FrameData>): (rs: seq<FrameData>)
    requires forall i :: 0 <= i < |ds| ==> |ds[i].angles| >= JointsCount
    ensures |rs| == |ds|
    ensures forall i :: 0 <= i < |ds| ==> rs[i] == FrameData(ds[i].time, ds[i].angles[..JointsCount])
  {
    if ds == [] then [] else FirstAngles(ds[..|ds| - 1]) + [FrameData(ds[|ds| - 1].time, ds[|ds| - 1].angles[..JointsCount])]
  }

  /** Frames with 22 or more angles are all written, one line plus "\n" each. */
  lemma {:induction false} WritingAll(show: real -> string, ds: seq<FrameData>, n: nat)
    requires n <= |ds|
    requires forall i :: 0 <= i < |ds| ==> |ds[i].angles| >= JointsCount
    ensures Writing(show, ds, n) == WriteState(Terminated(FrameTexts(show, ds[..n])), false)
  {
    if n > 0 {
      WritingAll(show, ds, n - 1);
      assert ds[..n][..n - 1] == ds[..n - 1];
    }
  }

  /** Reading the written lines gives back each frame's time and first 22 angles. */
  lemma {:induction false} ReadingWritten(parse: NumberReader, show: real -> string, ds: seq<FrameData>)
    requires forall i :: 0 <= i < |ds| ==> |ds[i].angles| >= JointsCount
    requires forall x :: parse(show(x)) == Some(x)
    requires forall x :: PrintableNumber(show(x))
    ensures Reading(FrameReader(parse), FrameTexts(show, ds), |ds|) == ReadState(FirstAngles(ds), false)
  {
    if ds != [] {
      var init := ds[..|ds| - 1];
      var lines := FrameTexts(show, ds);
      ReadingWritten(parse, show, init);
      ReadingPrefix(FrameReader(parse), lines, FrameTexts(show, init));
      FrameReadBack(parse, show, ds[|ds| - 1]);
    }
  }

  /**
   * Read after write: writing frames that all have 22 or more angles
   * gives one write per frame, each a line plus "\n", and reading those
   * lines gives back every frame's time and first 22 angles, in order,
   * provided the number printer's output reads back as the same number
   * and holds no space or line break.
   */
  lemma WrittenReadsBack(parse: NumberReader, show: real -> string, ds: seq<FrameData>)
    requires forall i :: 0 <= i < |ds| ==> |ds[i].angles| >= JointsCount
    requires forall x :: parse(show(x)) == Some(x)
    requires forall x :: PrintableNumber(show(x))
    ensures var lines := FrameTexts(show, ds);
            var r := Reading(FrameReader(parse), lines, |lines|);
            Writing(show, ds, |ds|) == WriteState(Terminated(lines), false) &&
            !r.stopped && |r.frames| == |ds| &&
            forall i :: 0 <= i < |ds| ==> r.frames[i] == FrameData(ds[i].time, ds[i].angles[..JointsCount])
  {
    WritingAll(show, ds, |ds|);
    assert ds[..|ds|] == ds;
    ReadingWritten(parse, show, ds);
  }

  /** Reading depends only on the lines read so far. */
  lemma {:induction false} ReadingPrefix(frameOf: string -> Option<FrameData>, lines: seq<string>, prefix: seq<string>)
    requires prefix <= lines
    ensures Reading(frameOf, lines, |prefix|) == Reading(frameOf, prefix, |prefix|)
    decreases |prefix|
  {
    if prefix != [] {
      ReadingPrefix(frameOf, lines, prefix[..|prefix| - 1]);
      ReadingPrefix(frameOf, prefix, prefix[..|prefix| - 1]);
    }
  }
}
