/**
 Server-sent event frames: the line reader, the field accumulator and the frame loop,
 with a printer as their inverse.
 */
module Sse {
  import opened Domain

  datatype Frame = Frame(id: string, event: string, data: string, retryMs: nat)

  const EMPTY: Frame := Frame("", "", "", 0)

  const MAX_INT: int := 9223372036854775807

  const MAX_LINE_SIZE: nat := 1048576

  // ---- lines ---------------------------------------------------------------------

  function DropCR(line: string): string {
    if line != "" && line[|line| - 1] == '\r' then line[..|line| - 1] else line
  }

  /**
   The tokens of a line scanner: split at LF, one trailing CR dropped, an empty last
   token not reported. A line that fills the buffer ends the scan.
   */
  function ScanLines(text: string, current: string): seq<string>
    decreases |text|
  {
    if |current| >= MAX_LINE_SIZE then []
    else if text == "" then (if current == "" then [] else [DropCR(current)])
    else if text[0] == '\n' then [DropCR(current)] + ScanLines(text[1..], "")
    else ScanLines(text[1..], current + [text[0]])
  }

  /** Whether the scan ends on a line that is too long. */
  predicate ScanFails(text: string, current: string)
    decreases |text|
  {
    if |current| >= MAX_LINE_SIZE then true
    else if text == "" then false
    else ScanFails(text[1..], if text[0] == '\n' then "" else current + [text[0]])
  }

  /** From position `i` on, the text has no LF for the length of the buffer. */
  predicate LongRun(text: string, i: nat) {
    i + MAX_LINE_SIZE <= |text| && forall j :: i <= j < i + MAX_LINE_SIZE ==> text[j] != '\n'
  }

  /** The scan fails exactly on a text with that many characters in a row and no LF among them. */
  lemma ScanFailsIff(text: string)
    ensures ScanFails(text, "") <==> exists i: nat :: LongRun(text, i)
  {
    assert "" + text == text;
    FailsFrom(text, "");
  }

  lemma {:induction false} FailsFrom(text: string, current: string)
    requires NoLF(current) && |current| <= MAX_LINE_SIZE
    ensures ScanFails(text, current) <==> exists i: nat :: LongRun(current + text, i)
    decreases |text|
  {
    var whole := current + text;
    if |current| == MAX_LINE_SIZE {
      assert LongRun(whole, 0);
    } else if text == "" {
      assert |whole| < MAX_LINE_SIZE;
    } else if text[0] == '\n' {
      var rest := text[1..];
      assert "" + rest == rest;
      FailsFrom(rest, "");
      RunsAfterLF(current, rest);
      assert whole == current + "\n" + rest;
    } else {
      assert current + [text[0]] + text[1..] == whole;
      FailsFrom(text[1..], current + [text[0]]);
    }
  }

  /** A run of that length lies after an early LF. */
  lemma RunsAfterLF(before: string, rest: string)
    requires |before| < MAX_LINE_SIZE
    ensures (exists i: nat :: LongRun(before + "\n" + rest, i)) <==> exists i: nat :: LongRun(rest, i)
  {
    var text, n := before + "\n" + rest, |before|;
    assert text[n] == '\n' && text[n + 1..] == rest;
    if i: nat :| LongRun(text, i) {
      assert LongRun(rest, i - (n + 1));
    }
    if i: nat :| LongRun(rest, i) {
      assert LongRun(text, i + n + 1);
    }
  }

  function JoinLines(lines: seq<string>): string {
    if lines == [] then "" else lines[0] + "\n" + JoinLines(lines[1..])
  }

  predicate NoLF(s: string) {
    forall i :: 0 <= i < |s| ==> s[i] != '\n'
  }

  /** A line that survives the scanner. */
  predicate LineSafe(s: string) {
    NoLF(s) && DropCR(s) == s && |s| < MAX_LINE_SIZE
  }

  lemma {:induction false} ScanOne(line: string, rest: string, current: string)
    requires NoLF(line) && |current| + |line| < MAX_LINE_SIZE
    ensures ScanLines(line + "\n" + rest, current) == [DropCR(current + line)] + ScanLines(rest, "")
    decreases |line|
  {
    var text := line + "\n" + rest;
    if line == "" {
      assert text[1..] == rest;
      assert current + line == current;
    } else {
      assert text[1..] == line[1..] + "\n" + rest;
      assert current + [line[0]] + line[1..] == current + line;
      ScanOne(line[1..], rest, current + [line[0]]);
    }
  }

  /** Scanning printed lines gives them back; text after the last LF is one more token. */
  lemma {:induction false} ScanJoined(lines: seq<string>, rest: string)
    requires forall i :: 0 <= i < |lines| ==> LineSafe(lines[i])
    ensures ScanLines(JoinLines(lines) + rest, "") == lines + ScanLines(rest, "")
    decreases |lines|
  {
    if lines == [] {
      assert JoinLines(lines) + rest == rest;
    } else {
      assert JoinLines(lines) + rest == lines[0] + "\n" + (JoinLines(lines[1..]) + rest);
      ScanOne(lines[0], JoinLines(lines[1..]) + rest, "");
      assert "" + lines[0] == lines[0];
      ScanJoined(lines[1..], rest);
    }
  }

  // ---- fields ----------------------------------------------------------------------

  function Cut(line: string, i: nat): (string, string)
    requires i <= |line|
    decreases |line| - i
  {
    if i == |line| then (line, "")
    else if line[i] == ':' then (line[..i], line[i + 1..])
    else Cut(line, i + 1)
  }

  /** Field and value; one optional space after the colon belongs to neither. */
  function SplitField(line: string): (string, string) {
    var (field, value) := Cut(line, 0);
    (field, if value != "" && value[0] == ' ' then value[1..] else value)
  }

  lemma {:induction false} CutAt(field: string, value: string, i: nat)
    requires ':' !in field && i <= |field|
    ensures Cut(field + ":" + value, i) == (field, value)
    decreases |field| - i
  {
    var line := field + ":" + value;
    if i == |field| {
      assert line[..i] == field && line[i + 1..] == value;
    } else {
      assert line[i] == field[i] && field[i] in field;
      CutAt(field, value, i + 1);
    }
  }

  function Line(field: string, value: string): string {
    field + ": " + value
  }

  lemma SplitPrinted(field: string, value: string)
    requires ':' !in field
    ensures SplitField(Line(field, value)) == (field, value)
  {
    assert Line(field, value) == field + ":" + (" " + value);
    CutAt(field, " " + value, 0);
    assert (" " + value)[1..] == value;
  }

  predicate Digit(c: char) {
    '0' <= c <= '9'
  }

  predicate AllDigits(s: string) {
    forall i :: 0 <= i < |s| ==> Digit(s[i])
  }

  function DigitsValue(s: string): nat
    requires AllDigits(s)
    decreases |s|
  {
    if s == "" then 0
    else
      assert Digit(s[|s| - 1]);
      DigitsValue(s[..|s| - 1]) * 10 + ((s[|s| - 1] as int) - ('0' as int))
  }

  function Atoi(s: string): Option<int> {
    var body := if s != "" && (s[0] == '-' || s[0] == '+') then s[1..] else s;
    if body == "" || !AllDigits(body) then None
    else
      var v: int := if s[0] == '-' then 0 - DigitsValue(body) else DigitsValue(body);
      if -MAX_INT - 1 <= v <= MAX_INT then Some(v) else None
  }

  function PrintNat(n: nat): string {
    if n < 10 then [(n + '0' as int) as char] else PrintNat(n / 10) + [(n % 10 + '0' as int) as char]
  }

  lemma {:induction false} PrintedDigits(n: nat)
    ensures PrintNat(n) != "" && AllDigits(PrintNat(n))
    ensures DigitsValue(PrintNat(n)) == n
    decreases n
  {
    if n < 10 {
      assert PrintNat(n)[..0] == "";
    } else {
      PrintedDigits(n / 10);
      var s := PrintNat(n);
      assert s[..|s| - 1] == PrintNat(n / 10);
    }
  }

  lemma AtoiPrinted(n: nat)
    requires n <= MAX_INT
    ensures Atoi(PrintNat(n)) == Some(n)
  {
    PrintedDigits(n);
    assert Digit(PrintNat(n)[0]);
  }

  /** One field line folded into the frame; unknown fields are ignored. */
  function Accumulate(line: string, frame: Frame): Frame {
    var (field, value) := SplitField(line);
    if field == "id" then frame.(id := value)
    else if field == "event" then frame.(event := value)
    else if field == "data" then frame.(data := (if frame.data != "" then frame.data + "\n" else "") + value)
    else if field == "retry" && Atoi(value).Some? && Atoi(value).value >= 0 then frame.(retryMs := Atoi(value).value)
    else frame
  }

  predicate Comment(line: string) {
    line != "" && line[0] == ':'
  }

  // ---- the frame loop -----------------------------------------------------------------

  /** The frames a sequence of lines dispatches, with `frame` gathered so far. */
  function Frames(lines: seq<string>, frame: Frame): seq<Frame>
    decreases |lines|
  {
    if lines == [] then []
    else if lines[0] == "" then [frame] + Frames(lines[1..], EMPTY)
    else Frames(lines[1..], if Comment(lines[0]) then frame else Accumulate(lines[0], frame))
  }

  /** The last reconnect delay the server asked for in a finished frame. */
  function ServerRetry(frames: seq<Frame>, soFar: nat): nat
    decreases |frames|
  {
    if frames == [] then soFar
    else ServerRetry(frames[1..], if frames[0].retryMs > 0 then frames[0].retryMs else soFar)
  }

  method ReadStream(text: string) returns (frames: seq<Frame>, serverRetry: nat, failed: bool)
    ensures frames == Frames(ScanLines(text, ""), EMPTY)
    ensures failed <==> exists i: nat :: LongRun(text, i)
    ensures serverRetry == ServerRetry(frames, 0)
  {
    var lines;
    lines, failed := Scan(text);
    ScanFailsIff(text);
    frames, serverRetry := [], 0;
    var frame := EMPTY;
    assert lines[0..] == lines;
    for i := 0 to |lines|
      invariant frames + Frames(lines[i..], frame) == Frames(lines, EMPTY)
      invariant serverRetry == ServerRetry(frames, 0)
    {
      assert lines[i..][1..] == lines[i + 1..];
      var line := lines[i];
      if line == "" {
        RetrySnoc(frames, frame, 0);
        if frame.retryMs > 0 { serverRetry := frame.retryMs; }
        frames := frames + [frame];
        frame := EMPTY;
        continue;
      }
      if !Comment(line) { frame := Accumulate(line, frame); }
    }
  }

  method Scan(text: string) returns (lines: seq<string>, failed: bool)
    ensures lines == ScanLines(text, "")
    ensures failed == ScanFails(text, "")
  {
    lines := [];
    var current := "";
    assert text[0..] == text;
    for i := 0 to |text|
      invariant |current| < MAX_LINE_SIZE
      invariant lines + ScanLines(text[i..], current) == ScanLines(text, "")
      invariant ScanFails(text[i..], current) == ScanFails(text, "")
    {
      assert text[i..][1..] == text[i + 1..];
      if text[i] == '\n' {
        lines := lines + [DropCR(current)];
        current := "";
      } else {
        current := current + [text[i]];
        if |current| == MAX_LINE_SIZE { return lines, true; }
      }
    }
    if current != "" { lines := lines + [DropCR(current)]; }
    failed := false;
  }

  lemma {:induction false} RetrySnoc(frames: seq<Frame>, f: Frame, soFar: nat)
    ensures ServerRetry(frames + [f], soFar) == if f.retryMs > 0 then f.retryMs else ServerRetry(frames, soFar)
    decreases |frames|
  {
    if frames == [] {
      assert frames + [f] == [f] && [f][1..] == [];
    } else {
      assert (frames + [f])[1..] == frames[1..] + [f];
      RetrySnoc(frames[1..], f, if frames[0].retryMs > 0 then frames[0].retryMs else soFar);
    }
  }

  // ---- the printer ----------------------------------------------------------------------

  function SplitLF(s: string): (pieces: seq<string>)
    ensures pieces != [] && forall i :: 0 <= i < |pieces| ==> NoLF(pieces[i])
    decreases |s|
  {
    if s == "" then [""]
    else
      var rest := SplitLF(s[1..]);
      if s[0] == '\n' then [""] + rest else [[s[0]] + rest[0]] + rest[1..]
  }

  function DataLines(pieces: seq<string>): seq<string> {
    seq(|pieces|, i requires 0 <= i < |pieces| => Line("data", pieces[i]))
  }

  function PrintFrame(f: Frame): seq<string> {
    (if f.id == "" then [] else [Line("id", f.id)])
    + (if f.event == "" then [] else [Line("event", f.event)])
    + (if f.data == "" then [] else DataLines(SplitLF(f.data)))
    + (if f.retryMs == 0 then [] else [Line("retry", PrintNat(f.retryMs))])
    + [""]
  }

  function PrintFrames(frames: seq<Frame>): seq<string> {
    if frames == [] then [] else PrintFrame(frames[0]) + PrintFrames(frames[1..])
  }

  // ---- data ---------------------------------------------------------------------------------

  function FoldData(data: string, pieces: seq<string>): string
    decreases |pieces|
  {
    if pieces == [] then data
    else FoldData((if data != "" then data + "\n" else "") + pieces[0], pieces[1..])
  }

  function JoinRest(pieces: seq<string>): string {
    if pieces == [] then "" else "\n" + pieces[0] + JoinRest(pieces[1..])
  }

  lemma {:induction false} SplitJoins(s: string)
    ensures s == SplitLF(s)[0] + JoinRest(SplitLF(s)[1..])
    decreases |s|
  {
    if s != "" {
      SplitJoins(s[1..]);
      var rest := SplitLF(s[1..]);
      assert s == [s[0]] + s[1..];
      if s[0] == '\n' {
        assert SplitLF(s)[1..] == rest;
        assert "\n" + rest[0] + JoinRest(rest[1..]) == [s[0]] + s[1..];
      } else {
        assert SplitLF(s)[1..] == rest[1..];
      }
    }
  }

  lemma {:induction false} FoldStarted(data: string, pieces: seq<string>)
    requires data != ""
    ensures FoldData(data, pieces) == data + JoinRest(pieces)
    decreases |pieces|
  {
    if pieces == [] {
      assert data + JoinRest(pieces) == data;
    } else {
      FoldStarted(data + "\n" + pieces[0], pieces[1..]);
      assert data + "\n" + pieces[0] + JoinRest(pieces[1..]) == data + JoinRest(pieces);
    }
  }

  predicate StartsWithLF(s: string) {
    s != "" && s[0] == '\n'
  }

  lemma {:induction false} FoldNeverStartsWithLF(data: string, pieces: seq<string>)
    requires !StartsWithLF(data) && forall i :: 0 <= i < |pieces| ==> NoLF(pieces[i])
    ensures !StartsWithLF(FoldData(data, pieces))
    decreases |pieces|
  {
    if pieces != [] {
      var next := (if data != "" then data + "\n" else "") + pieces[0];
      assert !StartsWithLF(next) by {
        if data == "" { assert next == pieces[0]; }
      }
      FoldNeverStartsWithLF(next, pieces[1..]);
    }
  }

  /** Data comes back exactly when it does not start with LF: a leading empty line leaves no trace. */
  lemma DataSurvivesIff(data: string)
    ensures FoldData("", SplitLF(data)) == data <==> !StartsWithLF(data)
  {
    var pieces := SplitLF(data);
    if StartsWithLF(data) {
      FoldNeverStartsWithLF("", pieces);
    } else {
      SplitJoins(data);
      assert "" + pieces[0] == pieces[0];
      if data == "" {
        assert pieces[1..] == [];
      } else {
        assert pieces[0] != "";
        FoldStarted(pieces[0], pieces[1..]);
      }
    }
  }

  // ---- the round trip -------------------------------------------------------------------------

  lemma FieldNamesDiffer()
    ensures "id" != "event" && "id" != "data" && "id" != "retry"
    ensures "event" != "data" && "event" != "retry" && "data" != "retry"
    ensures ':' !in "id" && ':' !in "event" && ':' !in "data" && ':' !in "retry"
  {
    assert |"id"| == 2 && |"event"| == 5 && |"data"| == 4 && |"retry"| == 5;
    assert "event"[0] == 'e' && "retry"[0] == 'r';
  }

  /** A printed field line is neither blank nor a comment. */
  lemma FramesOfField(field: string, value: string, rest: seq<string>, f: Frame)
    requires field != "" && ':' !in field
    ensures Frames([Line(field, value)] + rest, f) == Frames(rest, Accumulate(Line(field, value), f))
  {
    var line := Line(field, value);
    assert line[0] == field[0] && field[0] in field;
    assert ([line] + rest)[1..] == rest;
  }

  lemma AccumulatePrinted(value: string, f: Frame)
    ensures Accumulate(Line("id", value), f) == f.(id := value)
    ensures Accumulate(Line("event", value), f) == f.(event := value)
    ensures Accumulate(Line("data", value), f) == f.(data := (if f.data != "" then f.data + "\n" else "") + value)
    ensures Atoi(value).Some? && Atoi(value).value >= 0
            ==> Accumulate(Line("retry", value), f) == f.(retryMs := Atoi(value).value)
  {
    FieldNamesDiffer();
    SplitPrinted("id", value);
    SplitPrinted("event", value);
    SplitPrinted("data", value);
    SplitPrinted("retry", value);
  }

  lemma {:induction false} FramesOfData(pieces: seq<string>, rest: seq<string>, f: Frame)
    ensures Frames(DataLines(pieces) + rest, f) == Frames(rest, f.(data := FoldData(f.data, pieces)))
    decreases |pieces|
  {
    if pieces == [] {
      assert DataLines(pieces) + rest == rest;
    } else {
      var more := DataLines(pieces[1..]) + rest;
      assert DataLines(pieces) + rest == [Line("data", pieces[0])] + more;
      FieldNamesDiffer();
      FramesOfField("data", pieces[0], more, f);
      AccumulatePrinted(pieces[0], f);
      FramesOfData(pieces[1..], rest, Accumulate(Line("data", pieces[0]), f));
    }
  }

  /** A frame that prints and reads back as itself. */
  predicate Printable(f: Frame) {
    !StartsWithLF(f.data) && f.retryMs <= MAX_INT
  }

  lemma FieldId(value: string, rest: seq<string>, f: Frame)
    requires f.id == ""
    ensures Frames((if value == "" then [] else [Line("id", value)]) + rest, f) == Frames(rest, f.(id := value))
  {
    if value == "" {
      assert [] + rest == rest;
    } else {
      FieldNamesDiffer();
      FramesOfField("id", value, rest, f);
      AccumulatePrinted(value, f);
    }
  }

  lemma FieldEvent(value: string, rest: seq<string>, f: Frame)
    requires f.event == ""
    ensures Frames((if value == "" then [] else [Line("event", value)]) + rest, f) == Frames(rest, f.(event := value))
  {
    if value == "" {
      assert [] + rest == rest;
    } else {
      FieldNamesDiffer();
      FramesOfField("event", value, rest, f);
      AccumulatePrinted(value, f);
    }
  }

  lemma FieldData(value: string, rest: seq<string>, f: Frame)
    requires f.data == "" && !StartsWithLF(value)
    ensures Frames((if value == "" then [] else DataLines(SplitLF(value))) + rest, f) == Frames(rest, f.(data := value))
  {
    if value == "" {
      assert [] + rest == rest;
    } else {
      DataSurvivesIff(value);
      FramesOfData(SplitLF(value), rest, f);
    }
  }

  lemma FieldRetry(n: nat, rest: seq<string>, f: Frame)
    requires n <= MAX_INT && f.retryMs == 0
    ensures Frames((if n == 0 then [] else [Line("retry", PrintNat(n))]) + rest, f) == Frames(rest, f.(retryMs := n))
  {
    if n == 0 {
      assert [] + rest == rest;
    } else {
      FieldNamesDiffer();
      FramesOfField("retry", PrintNat(n), rest, f);
      AtoiPrinted(n);
      AccumulatePrinted(PrintNat(n), f);
    }
  }

  lemma Regroup(a: seq<string>, b: seq<string>, c: seq<string>, d: seq<string>, e: seq<string>, f: seq<string>)
    ensures a + b + c + d + e + f == a + (b + (c + (d + (e + f))))
  {
    assert a + b + c + d + e + f == a + b + c + d + (e + f);
    assert a + b + c + d + (e + f) == a + b + c + (d + (e + f));
    assert a + b + c + (d + (e + f)) == a + b + (c + (d + (e + f)));
  }

  lemma FramesOfPrinted(f: Frame, rest: seq<string>)
    requires Printable(f)
    ensures Frames(PrintFrame(f) + rest, EMPTY) == [f] + Frames(rest, EMPTY)
  {
    var idLines := if f.id == "" then [] else [Line("id", f.id)];
    var eventLines := if f.event == "" then [] else [Line("event", f.event)];
    var dataLines := if f.data == "" then [] else DataLines(SplitLF(f.data));
    var retryLines := if f.retryMs == 0 then [] else [Line("retry", PrintNat(f.retryMs))];
    var end := [""] + rest;
    Regroup(idLines, eventLines, dataLines, retryLines, [""], rest);
    FieldId(f.id, eventLines + (dataLines + (retryLines + end)), EMPTY);
    var f1 := EMPTY.(id := f.id);
    FieldEvent(f.event, dataLines + (retryLines + end), f1);
    var f2 := f1.(event := f.event);
    FieldData(f.data, retryLines + end, f2);
    var f3 := f2.(data := f.data);
    FieldRetry(f.retryMs, end, f3);
    assert f3.(retryMs := f.retryMs) == f;
    assert end[0] == "" && end[1..] == rest;
  }

  lemma Assoc<T>(a: seq<T>, b: seq<T>, c: seq<T>)
    ensures (a + b) + c == a + (b + c)
  {
  }

  lemma {:induction false} FramesOfAllPrinted(frames: seq<Frame>, rest: seq<string>)
    requires forall i :: 0 <= i < |frames| ==> Printable(frames[i])
    ensures Frames(PrintFrames(frames) + rest, EMPTY) == frames + Frames(rest, EMPTY)
    decreases |frames|
  {
    if frames == [] {
      assert PrintFrames(frames) + rest == rest;
    } else {
      var first, more := frames[0], frames[1..];
      Assoc(PrintFrame(first), PrintFrames(more), rest);
      FramesOfPrinted(first, PrintFrames(more) + rest);
      FramesOfAllPrinted(more, rest);
      Assoc([first], more, Frames(rest, EMPTY));
      assert frames == [first] + more;
    }
  }

  /** The lines without the comments. */
  function WithoutComments(lines: seq<string>): seq<string> {
    if lines == [] then []
    else (if Comment(lines[0]) then [] else [lines[0]]) + WithoutComments(lines[1..])
  }

  lemma {:induction false} CommentsDoNotMatter(lines: seq<string>, f: Frame)
    ensures Frames(lines, f) == Frames(WithoutComments(lines), f)
    decreases |lines|
  {
    if lines != [] {
      var rest := WithoutComments(lines[1..]);
      if lines[0] == "" {
        CommentsDoNotMatter(lines[1..], EMPTY);
        assert WithoutComments(lines) == [lines[0]] + rest;
        assert WithoutComments(lines)[1..] == rest;
      } else if Comment(lines[0]) {
        CommentsDoNotMatter(lines[1..], f);
        assert WithoutComments(lines) == rest;
      } else {
        CommentsDoNotMatter(lines[1..], Accumulate(lines[0], f));
        assert WithoutComments(lines) == [lines[0]] + rest;
        assert WithoutComments(lines)[1..] == rest;
      }
    }
  }

  ghost predicate NoneBlank(lines: seq<string>) {
    forall i :: 0 <= i < |lines| ==> lines[i] != ""
  }

  ghost predicate AllSafe(lines: seq<string>) {
    forall i :: 0 <= i < |lines| ==> LineSafe(lines[i])
  }

  /** Lines that never finish a frame dispatch nothing. */
  lemma {:induction false} UnfinishedIsDropped(lines: seq<string>, f: Frame)
    requires NoneBlank(lines)
    ensures Frames(lines, f) == []
    decreases |lines|
  {
    if lines != [] {
      UnfinishedIsDropped(lines[1..], if Comment(lines[0]) then f else Accumulate(lines[0], f));
    }
  }

  /** A blank line after them dispatches one frame. */
  lemma {:induction false} BlankFinishesOne(lines: seq<string>, f: Frame)
    requires NoneBlank(lines)
    ensures |Frames(lines + [""], f)| == 1
    decreases |lines|
  {
    if lines == [] {
      assert (lines + [""])[1..] == [];
    } else {
      assert (lines + [""])[1..] == lines[1..] + [""];
      BlankFinishesOne(lines[1..], if Comment(lines[0]) then f else Accumulate(lines[0], f));
    }
  }

  /** Text after the last LF is at most one token. */
  function TailTokens(partial: string): seq<string> {
    if partial == "" || |partial| >= MAX_LINE_SIZE then [] else [DropCR(partial)]
  }

  lemma {:induction false} ScanTail(partial: string, current: string)
    requires NoLF(partial)
    ensures ScanLines(partial, current) == TailTokens(current + partial)
    decreases |partial|
  {
    if partial == "" || |current| >= MAX_LINE_SIZE {
      assert partial == "" ==> current + partial == current;
    } else {
      assert current + [partial[0]] + partial[1..] == current + partial;
      ScanTail(partial[1..], current + [partial[0]]);
    }
  }

  lemma {:induction false} WithoutCommentsConcat(a: seq<string>, b: seq<string>)
    ensures WithoutComments(a + b) == WithoutComments(a) + WithoutComments(b)
    decreases |a|
  {
    if a == [] {
      assert a + b == b;
    } else {
      assert (a + b)[1..] == a[1..] + b;
      WithoutCommentsConcat(a[1..], b);
    }
  }

  /**
   Printing any printable frames, with comment lines inserted anywhere, an unfinished
   frame at the end and a text cut inside its last line, and reading it back gives the
   same frames in order, exactly unless the cut leaves a lone CR: that reads as the
   blank line that finishes the frame.
   */
  lemma PrintThenRead(frames: seq<Frame>, lines: seq<string>, unfinished: seq<string>, partial: string)
    requires forall i :: 0 <= i < |frames| ==> Printable(frames[i])
    requires WithoutComments(lines) == PrintFrames(frames) + unfinished
    requires NoneBlank(unfinished) && AllSafe(lines) && NoLF(partial)
    ensures Frames(ScanLines(JoinLines(lines) + partial, ""), EMPTY) == frames <==> partial != "\r"
  {
    var tail := TailTokens(partial);
    assert "" + partial == partial;
    ScanTail(partial, "");
    ScanJoined(lines, partial);
    CommentsDoNotMatter(lines + tail, EMPTY);
    WithoutCommentsConcat(lines, tail);
    var rest := unfinished + WithoutComments(tail);
    Assoc(PrintFrames(frames), unfinished, WithoutComments(tail));
    FramesOfAllPrinted(frames, rest);
    if partial == "\r" {
      assert partial[..0] == "" && tail == [""];
      assert WithoutComments([""]) == [""] + WithoutComments([""][1..]);
      assert WithoutComments(tail) == [""];
      BlankFinishesOne(unfinished, EMPTY);
    } else {
      TailNotBlank(partial);
      UnfinishedIsDropped(rest, EMPTY);
      assert frames + [] == frames;
    }
  }

  lemma TailNotBlank(partial: string)
    requires partial != "\r"
    ensures NoneBlank(WithoutComments(TailTokens(partial)))
  {
    var tail := TailTokens(partial);
    if tail != [] {
      assert |partial| == 1 ==> partial == [partial[0]];
      assert tail[0] != "";
      assert tail[1..] == [] && WithoutComments(tail[1..]) == [];
    }
  }

  /** A value that may stand at the end of a line of this field. */
  predicate ValueSafe(field: string, value: string) {
    NoLF(value) && (value == "" || value[|value| - 1] != '\r') && |Line(field, value)| < MAX_LINE_SIZE
  }

  lemma LineOfSafeValue(field: string, value: string)
    requires NoLF(field) && ValueSafe(field, value)
    ensures LineSafe(Line(field, value))
  {
    var line := Line(field, value);
    assert line[|line| - 1] == if value == "" then ' ' else value[|value| - 1];
  }

  /** What the caller owes: no LF in id or event, no CR at the end of any line, and no line that is too long. */
  ghost predicate ScanSafe(f: Frame) {
    ValueSafe("id", f.id) && ValueSafe("event", f.event)
    && forall i :: 0 <= i < |SplitLF(f.data)| ==> ValueSafe("data", SplitLF(f.data)[i])
  }

  lemma PrintedLinesAreSafe(f: Frame)
    requires ScanSafe(f) && f.retryMs <= MAX_INT
    ensures AllSafe(PrintFrame(f))
  {
    LineOfSafeValue("id", f.id);
    LineOfSafeValue("event", f.event);
    var pieces := SplitLF(f.data);
    forall i | 0 <= i < |pieces| ensures LineSafe(DataLines(pieces)[i]) {
      LineOfSafeValue("data", pieces[i]);
    }
    RetryLineSafe(f.retryMs);
  }

  function Pow10(k: nat): nat {
    if k == 0 then 1 else 10 * Pow10(k - 1)
  }

  lemma {:induction false} PrintedLength(n: nat, k: nat)
    requires k > 0 && n < Pow10(k)
    ensures |PrintNat(n)| <= k
    decreases n
  {
    if n >= 10 {
      assert k > 1 by { assert Pow10(1) == 10; }
      PrintedLength(n / 10, k - 1);
    }
  }

  lemma RetryLineSafe(n: nat)
    requires n <= MAX_INT
    ensures LineSafe(Line("retry", PrintNat(n)))
  {
    PrintedDigits(n);
    assert Pow10(7) == 10000000;
    assert Pow10(13) == 10000000000000;
    assert Pow10(19) == 10000000000000000000;
    PrintedLength(n, 19);
    var s := PrintNat(n);
    LineOfSafeValue("retry", s);
  }

  lemma {:induction false} AllPrintedSafe(frames: seq<Frame>)
    requires forall i :: 0 <= i < |frames| ==> ScanSafe(frames[i]) && frames[i].retryMs <= MAX_INT
    ensures AllSafe(PrintFrames(frames))
    decreases |frames|
  {
    if frames != [] {
      PrintedLinesAreSafe(frames[0]);
      AllPrintedSafe(frames[1..]);
    }
  }

  /** Without comments: the printed text of any scan-safe, printable frames reads back as those frames. */
  lemma RoundTrip(frames: seq<Frame>)
    requires forall i :: 0 <= i < |frames| ==> Printable(frames[i]) && ScanSafe(frames[i])
    ensures Frames(ScanLines(JoinLines(PrintFrames(frames)), ""), EMPTY) == frames
  {
    AllPrintedSafe(frames);
    ScanJoined(PrintFrames(frames), "");
    assert JoinLines(PrintFrames(frames)) + "" == JoinLines(PrintFrames(frames));
    assert PrintFrames(frames) + ScanLines("", "") == PrintFrames(frames);
    FramesOfAllPrinted(frames, []);
    assert PrintFrames(frames) + [] == PrintFrames(frames);
  }
}
