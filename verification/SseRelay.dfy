/**
  The server-sent-event relay of internal/proxy/groq.go, `CompleteStream`: a bufio.Scanner cuts the
  upstream body into lines and every "data: " line is passed on, up to and including the first
  "data: [DONE]".  A char stands for one byte of the stream; line syntax is that of section 9.2.5
  of the WHATWG HTML standard with line feeds.
 */
module SseRelay {

  /** bufio.MaxScanTokenSize. */
  const MAX_TOKEN := 65536

  const DATA := "data: "
  const DONE := "data: [DONE]"

  // ---------------------------------------------------------------- bufio.Scanner with ScanLines

  /** The index of the first line feed, or the length of a text without any. */
  function LineEnd(t: string): nat
    ensures LineEnd(t) <= |t|
    ensures LineEnd(t) < |t| ==> t[LineEnd(t)] == '\n'
    ensures '\n' !in t[..LineEnd(t)]
  {
    if t == "" || t[0] == '\n' then 0 else 1 + LineEnd(t[1..])
  }

  predicate EndsInCR(line: string) { line != "" && line[|line| - 1] == '\r' }

  function DropCR(line: string): string {
    if EndsInCR(line) then line[..|line| - 1] else line
  }

  datatype Scan = Line(text: string, rest: string) | EndOfInput | TooLong

  function ScanOne(t: string): (s: Scan)
    ensures s.Line? ==> |s.rest| < |t|
  {
    var n := LineEnd(t);
    if t == "" then EndOfInput
    else if n == |t| then (if n >= MAX_TOKEN then TooLong else Line(DropCR(t), ""))
    else if n + 1 > MAX_TOKEN then TooLong
    else Line(DropCR(t[..n]), t[n + 1..])
  }

  /** The lines a scanner delivers from `t`, until the end or an overlong line. */
  function Lines(t: string): seq<string>
    decreases |t|
  {
    match ScanOne(t)
    case Line(text, rest) => [text] + Lines(rest)
    case _ => []
  }

  /** Whether scanning `t` ends with bufio.ErrTooLong. */
  predicate Overlong(t: string)
    decreases |t|
  {
    match ScanOne(t)
    case Line(_, rest) => Overlong(rest)
    case EndOfInput => false
    case TooLong => true
  }

  // ---------------------------------------------------------------- what is relayed

  predicate IsData(line: string) { DATA <= line }

  /** The data lines up to and including the first DONE. */
  function Relayed(lines: seq<string>): seq<string> {
    if lines == [] then []
    else if lines[0] == DONE then [DONE]
    else (if IsData(lines[0]) then [lines[0]] else []) + Relayed(lines[1..])
  }

  function Render(events: seq<string>): string {
    if events == [] then "" else events[0] + "\n\n" + Render(events[1..])
  }

  /** Every event is written with an empty line after it, one event after the other. */
  lemma {:induction false} RenderAppends(a: seq<string>, b: seq<string>)
    ensures Render(a + b) == Render(a) + Render(b)
    ensures forall e :: Render([e]) == e + "\n\n"
  {
    forall e ensures Render([e]) == e + "\n\n" {
      assert Render([e]) == e + "\n\n" + Render([e][1..]);
    }
    if a == [] {
      assert a + b == b;
    } else {
      RenderAppends(a[1..], b);
      assert (a + b)[1..] == a[1..] + b;
    }
  }

  function Filtered(lines: seq<string>): seq<string> {
    if lines == [] then [] else (if IsData(lines[0]) then [lines[0]] else []) + Filtered(lines[1..])
  }

  /** Against the declarative reading: the filter of everything through the first DONE. */
  lemma {:induction false} RelayedIsFilteredThroughDone(lines: seq<string>, n: nat)
    requires n <= |lines| && DONE !in lines[..n] && (n < |lines| ==> lines[n] == DONE)
    ensures Relayed(lines) == Filtered(lines[..if n < |lines| then n + 1 else n])
  {
    var stop := if n < |lines| then n + 1 else n;
    if lines != [] {
      if n > 0 {
        assert lines[..n][0] == lines[0];
        assert lines[1..][..n - 1] == lines[..n][1..];
        RelayedIsFilteredThroughDone(lines[1..], n - 1);
        assert lines[..stop][1..] == lines[1..][..stop - 1];
      } else {
        assert lines[..stop] == [DONE] && [DONE][1..] == [];
      }
    }
  }

  /** Stopping after any number of lines leaves a line-granular prefix. */
  lemma {:induction false} EarlyStopIsPrefix(lines: seq<string>, n: nat)
    requires n <= |lines|
    ensures Relayed(lines[..n]) <= Relayed(lines)
    ensures DONE in lines[..n] ==> Relayed(lines[..n]) == Relayed(lines)
  {
    if n > 0 {
      EarlyStopIsPrefix(lines[1..], n - 1);
      assert lines[..n][1..] == lines[1..][..n - 1];
      if DONE in lines[..n] && lines[0] != DONE {
        assert DONE in lines[..n][1..];
      }
    }
  }

  datatype Outcome = Finished | Cancelled | StreamError

  function Min(a: nat, b: nat): nat { if a < b then a else b }

  /** The lines handled before the context is found cancelled. */
  function Seen(lines: seq<string>, cancelAt: nat): seq<string> {
    lines[..Min(cancelAt, |lines|)]
  }

  lemma SeenStep(line: string, lines: seq<string>, left: nat)
    requires left > 0
    ensures Seen([line] + lines, left) == [line] + Seen(lines, left - 1)
    ensures DONE in Seen([line] + lines, left) <==> line == DONE || DONE in Seen(lines, left - 1)
    ensures Relayed(Seen([line] + lines, left)) ==
            if line == DONE then [DONE]
            else (if IsData(line) then [line] else []) + Relayed(Seen(lines, left - 1))
  {
  }

  /** How a relay ends that would read `lines` and then find the input overlong, broken or complete. */
  function Ending(lines: seq<string>, overlong: bool, readFails: bool, cancelAt: nat): Outcome {
    if DONE in Seen(lines, cancelAt) then Finished
    else if cancelAt < |lines| then Cancelled
    else if readFails || overlong then StreamError
    else Finished
  }

  /**
    The end that is reported, case by case: an error exactly when the context is not cancelled first and the read
    fails or meets an overlong line, unless DONE has come before either.
   */
  lemma EndingExactly(lines: seq<string>, overlong: bool, readFails: bool, cancelAt: nat)
    ensures var end := Ending(lines, overlong, readFails, cancelAt);
            var done := exists i :: 0 <= i < |lines| && i < cancelAt && lines[i] == DONE;
            && (end.StreamError? <==> !done && |lines| <= cancelAt && (readFails || overlong))
            && (end.Cancelled? <==> !done && cancelAt < |lines|)
            && (end.Finished? <==> done || (|lines| <= cancelAt && !readFails && !overlong))
  {
    var seen := Seen(lines, cancelAt);
    if DONE in seen {
      var i :| 0 <= i < |seen| && seen[i] == DONE;
      assert lines[i] == DONE;
    }
    if i :| 0 <= i < |lines| && i < cancelAt && lines[i] == DONE {
      assert seen[i] == DONE;
    }
  }

  lemma EndingStep(line: string, lines: seq<string>, overlong: bool, readFails: bool, left: nat)
    requires left > 0
    ensures Ending([line] + lines, overlong, readFails, left) ==
            if line == DONE then Finished else Ending(lines, overlong, readFails, left - 1)
  {
    SeenStep(line, lines, left);
  }

  /** What is still to be relayed of an unread input, and how it ends. */
  function Pending(rest: string, left: nat): seq<string> { Relayed(Seen(Lines(rest), left)) }

  function PendingEnd(rest: string, readFails: bool, left: nat): Outcome {
    Ending(Lines(rest), Overlong(rest), readFails, left)
  }

  lemma PendingStep(rest: string, readFails: bool, left: nat)
    requires ScanOne(rest).Line? && left > 0
    ensures var line, next := ScanOne(rest).text, ScanOne(rest).rest;
            && Pending(rest, left) == (if IsData(line) then [line] else []) +
                                      (if line == DONE then [] else Pending(next, left - 1))
            && PendingEnd(rest, readFails, left) ==
               if line == DONE then Finished else PendingEnd(next, readFails, left - 1)
  {
    var line, next := ScanOne(rest).text, ScanOne(rest).rest;
    SeenStep(line, Lines(next), left);
    EndingStep(line, Lines(next), Overlong(next), readFails, left);
  }

  lemma Regroup(a: seq<string>, b: seq<string>, c: seq<string>)
    ensures a + (b + c) == (a + b) + c
    ensures b == [] ==> a + b == a
  {
  }

  /**
    The scanner loop; every element of `out` is written followed by a blank line and flushed.  The
    context is found cancelled on the iteration after `cancelAt` lines; a read error after the bytes
    of `body` shows once the scanner has delivered what it had.
   */
  method Relay(body: string, readFails: bool, cancelAt: nat) returns (out: seq<string>, outcome: Outcome)
    ensures out == Relayed(Seen(Lines(body), cancelAt))
    ensures outcome == Ending(Lines(body), Overlong(body), readFails, cancelAt)
  {
    out := [];
    var rest := body;
    var left: nat := cancelAt;
    while ScanOne(rest).Line?
      invariant out + Pending(rest, left) == Pending(body, cancelAt)
      invariant PendingEnd(rest, readFails, left) == PendingEnd(body, readFails, cancelAt)
      decreases |rest|
    {
      var line := ScanOne(rest).text;
      if left == 0 {
        return out, Cancelled;
      }
      PendingStep(rest, readFails, left);
      ghost var before := out;
      if IsData(line) {
        out := out + [line];
        if line == DONE {
          return out, Finished;
        }
      }
      rest := ScanOne(rest).rest;
      left := left - 1;
      Regroup(before, if IsData(line) then [line] else [], Pending(rest, left));
    }
    outcome := if readFails || ScanOne(rest).TooLong? then StreamError else Finished;
  }

  // ---------------------------------------------------------------- relaying the output again

  /** What the client receives of a body that is read to its end. */
  function Events(body: string): seq<string> { Relayed(Lines(body)) }

  predicate CleanLine(line: string) { '\n' !in line && |line| < MAX_TOKEN }

  lemma {:induction false} LinesAreClean(t: string)
    ensures forall line :: line in Lines(t) ==> CleanLine(line) && forall c :: c in line ==> c in t
    decreases |t|
  {
    if ScanOne(t).Line? {
      LinesAreClean(ScanOne(t).rest);
    }
  }

  lemma {:induction false} RelayedAreData(lines: seq<string>)
    ensures forall e :: e in Relayed(lines) ==> e in lines && IsData(e)
  {
    if lines != [] {
      RelayedAreData(lines[1..]);
    }
  }

  lemma {:induction false} RelayedIsStable(lines: seq<string>)
    ensures Relayed(Relayed(lines)) == Relayed(lines)
  {
    if lines != [] && lines[0] != DONE {
      RelayedIsStable(lines[1..]);
      var tail := Relayed(lines[1..]);
      if IsData(lines[0]) {
        assert Relayed(lines) == [lines[0]] + tail;
        assert Relayed(lines)[1..] == tail;
      } else {
        assert Relayed(lines) == tail;
      }
    }
  }

  function DropAll(events: seq<string>): seq<string> {
    if events == [] then [] else [DropCR(events[0])] + DropAll(events[1..])
  }

  lemma {:induction false} LineEndAt(line: string, next: string)
    requires '\n' !in line
    ensures LineEnd(line + "\n" + next) == |line|
  {
    if line != "" {
      assert (line + "\n" + next)[1..] == line[1..] + "\n" + next;
      LineEndAt(line[1..], next);
    }
  }

  lemma ScanLine(line: string, next: string)
    requires CleanLine(line)
    ensures ScanOne(line + "\n" + next) == Line(DropCR(line), next)
  {
    var t := line + "\n" + next;
    LineEndAt(line, next);
    assert t[..|line|] == line && t[|line| + 1..] == next;
  }

  /** The text with these lines, each ended by a line feed, before an unfinished last one. */
  function Joined(raw: seq<string>, last: string): string {
    if raw == [] then last else raw[0] + "\n" + Joined(raw[1..], last)
  }

  lemma {:induction false} NoLineEnd(t: string)
    requires '\n' !in t
    ensures LineEnd(t) == |t|
  {
    if t != "" {
      NoLineEnd(t[1..]);
    }
  }

  lemma LastLine(last: string)
    requires '\n' !in last
    ensures Lines(last) == if last == "" || |last| >= 65536 then [] else [DropCR(last)]
    ensures Overlong(last) <==> |last| >= 65536
  {
    NoLineEnd(last);
  }

  lemma FirstLine(line: string, next: string)
    requires '\n' !in line
    ensures Lines(line + "\n" + next) == if |line| >= 65536 then [] else [DropCR(line)] + Lines(next)
    ensures Overlong(line + "\n" + next) <==> |line| >= 65536 || Overlong(next)
  {
    LineEndAt(line, next);
    if |line| < 65536 {
      ScanLine(line, next);
    }
  }

  /** The first `n` lines are short enough for the scanner, and the next one, if there is one, is not. */
  predicate StopsAt(raw: seq<string>, n: nat) {
    && n <= |raw| && (n < |raw| ==> |raw[n]| >= 65536)
    && forall i :: 0 <= i < n ==> |raw[i]| < 65536
  }

  predicate NoBreaks(raw: seq<string>) { forall i :: 0 <= i < |raw| ==> '\n' !in raw[i] }

  lemma TailStops(raw: seq<string>, n: nat)
    requires StopsAt(raw, n) && NoBreaks(raw) && 0 < n
    ensures StopsAt(raw[1..], n - 1) && NoBreaks(raw[1..])
  {
  }

  /**
    What the scanner delivers of a text: its lines without a carriage return at the end, an unfinished last one
    included, up to the first line of 65536 bytes or more, which is an error.
   */
  lemma {:induction false} LinesExactly(raw: seq<string>, last: string, n: nat)
    requires NoBreaks(raw) && '\n' !in last && StopsAt(raw, n)
    ensures Lines(Joined(raw, last)) == DropAll(raw[..n]) + LastRead(n < |raw|, last)
    ensures Overlong(Joined(raw, last)) <==> n < |raw| || |last| >= 65536
  {
    if raw == [] {
      LastLine(last);
    } else {
      FirstLine(raw[0], Joined(raw[1..], last));
      if n > 0 {
        TailStops(raw, n);
        LinesExactly(raw[1..], last, n - 1);
        DropAllCons(raw, n, LastRead(n < |raw|, last));
      }
    }
  }

  /** What is read of an unfinished last line. */
  function LastRead(stopped: bool, last: string): seq<string> {
    if stopped || last == "" || |last| >= 65536 then [] else [DropCR(last)]
  }

  lemma DropAllCons(raw: seq<string>, n: nat, more: seq<string>)
    requires 0 < n <= |raw|
    ensures DropAll(raw[..n]) + more == [DropCR(raw[0])] + (DropAll(raw[1..][..n - 1]) + more)
  {
    assert raw[..n][1..] == raw[1..][..n - 1];
  }

  lemma RenderedLines(e: string, tail: string)
    requires CleanLine(e)
    ensures Lines(e + "\n\n" + tail) == [DropCR(e)] + ([""] + Lines(tail))
  {
    assert e + "\n\n" + tail == e + "\n" + ("\n" + tail);
    ScanLine(e, "\n" + tail);
    assert "\n" + tail == "" + "\n" + tail;
    ScanLine("", tail);
  }

  lemma BlankLineIsSilent(line: string, lines: seq<string>)
    ensures Relayed([line] + ([""] + lines)) ==
            if line == DONE then [DONE] else (if IsData(line) then [line] else []) + Relayed(lines)
  {
  }

  lemma {:induction false} RelayOfRendered(events: seq<string>)
    requires forall e :: e in events ==> CleanLine(e)
    ensures Events(Render(events)) == Relayed(DropAll(events))
  {
    if events != [] {
      RenderedLines(events[0], Render(events[1..]));
      BlankLineIsSilent(DropCR(events[0]), Lines(Render(events[1..])));
      RelayOfRendered(events[1..]);
      assert DropAll(events)[1..] == DropAll(events[1..]);
    }
  }

  function TotalLength(lines: seq<string>): nat {
    if lines == [] then 0 else |lines[0]| + TotalLength(lines[1..])
  }

  lemma {:induction false} RelayedIsShorter(lines: seq<string>)
    ensures TotalLength(Relayed(lines)) <= TotalLength(lines)
  {
    if lines != [] {
      RelayedIsShorter(lines[1..]);
      var tail := Relayed(lines[1..]);
      assert ([lines[0]] + tail)[1..] == tail && [DONE][1..] == [] && [] + tail == tail;
    }
  }

  lemma {:induction false} DropAllShortens(events: seq<string>)
    ensures TotalLength(DropAll(events)) <= TotalLength(events)
    ensures if exists e :: e in events && EndsInCR(e) then TotalLength(DropAll(events)) < TotalLength(events)
            else DropAll(events) == events
  {
    if events != [] {
      DropAllShortens(events[1..]);
      assert DropAll(events)[1..] == DropAll(events[1..]);
      assert events == [events[0]] + events[1..];
    }
  }

  /** The lines as they stand in the body, before the scanner drops a carriage return. */
  function RawLines(t: string): seq<string>
    decreases |t|
  {
    match ScanOne(t)
    case Line(_, rest) => [t[..LineEnd(t)]] + RawLines(rest)
    case _ => []
  }

  predicate EndsInTwoCRs(raw: string) { |raw| >= 2 && raw[|raw| - 2] == '\r' && raw[|raw| - 1] == '\r' }

  /** Line `i` of the body is relayed and keeps a carriage return. */
  predicate KeepsCR(raw: seq<string>, lines: seq<string>, i: nat)
    requires i < |raw| && |raw| == |lines|
  {
    IsData(raw[i]) && EndsInTwoCRs(raw[i]) && DONE !in lines[..i]
  }

  lemma {:induction false} LinesOfRaw(t: string)
    ensures |RawLines(t)| == |Lines(t)|
    ensures forall i :: 0 <= i < |Lines(t)| ==> Lines(t)[i] == DropCR(RawLines(t)[i])
    decreases |t|
  {
    if ScanOne(t).Line? {
      LinesOfRaw(ScanOne(t).rest);
      assert t[..|t|] == t;
    }
  }

  lemma DroppedKeepsCR(raw: string)
    ensures IsData(DropCR(raw)) && EndsInCR(DropCR(raw)) <==> IsData(raw) && EndsInTwoCRs(raw)
  {
    if EndsInTwoCRs(raw) && IsData(raw) {
      assert raw[5] == DATA[5] == ' ';
    }
  }

  predicate RelayedWithCR(lines: seq<string>, i: int) {
    0 <= i < |lines| && IsData(lines[i]) && EndsInCR(lines[i]) && DONE !in lines[..i]
  }

  lemma LaterLine(line: string, tail: seq<string>, i: int)
    requires line != DONE
    ensures RelayedWithCR([line] + tail, i + 1) <==> RelayedWithCR(tail, i) || (i == -1 && RelayedWithCR([line], 0))
  {
    if 0 <= i < |tail| {
      assert ([line] + tail)[..i + 1] == [line] + tail[..i];
    }
  }

  lemma {:induction false} RelayedAt(lines: seq<string>)
    ensures (exists e :: e in Relayed(lines) && EndsInCR(e)) <==> exists i :: RelayedWithCR(lines, i)
  {
    if lines != [] && lines[0] != DONE {
      var tail := lines[1..];
      assert lines == [lines[0]] + tail;
      RelayedAt(tail);
      if i :| RelayedWithCR(tail, i) {
        LaterLine(lines[0], tail, i);
      }
      if i :| RelayedWithCR(lines, i) {
        LaterLine(lines[0], tail, i - 1);
      }
      if IsData(lines[0]) && EndsInCR(lines[0]) {
        assert RelayedWithCR(lines, 0);
        assert lines[0] in Relayed(lines);
      }
    }
  }

  lemma RelayKeepsCR(body: string)
    ensures |RawLines(body)| == |Lines(body)|
    ensures (exists e :: e in Events(body) && EndsInCR(e)) <==>
            exists i :: 0 <= i < |RawLines(body)| && KeepsCR(RawLines(body), Lines(body), i)
  {
    var raw, lines := RawLines(body), Lines(body);
    LinesOfRaw(body);
    RelayedAt(lines);
    forall i | 0 <= i < |lines| ensures RelayedWithCR(lines, i) <==> KeepsCR(raw, lines, i) {
      DroppedKeepsCR(raw[i]);
    }
    if i :| RelayedWithCR(lines, i) {
      assert KeepsCR(raw, lines, i);
    }
    if i :| 0 <= i < |raw| && KeepsCR(raw, lines, i) {
      assert RelayedWithCR(lines, i);
    }
  }

  lemma RelayedTwice(body: string)
    ensures Events(Render(Events(body))) == Events(body) <==>
            !exists e :: e in Events(body) && EndsInCR(e)
  {
    var events := Events(body);
    LinesAreClean(body);
    RelayedAreData(Lines(body));
    RelayOfRendered(events);
    DropAllShortens(events);
    RelayedIsShorter(DropAll(events));
    RelayedIsStable(Lines(body));
  }

  /**
    Relaying the relay's own output reproduces it exactly when no data line of the body, up to the first
    DONE, ends in two carriage returns.
   */
  lemma RelayIsIdempotentIff(body: string)
    ensures |RawLines(body)| == |Lines(body)|
    ensures Events(Render(Events(body))) == Events(body) <==>
            !exists i :: 0 <= i < |RawLines(body)| && KeepsCR(RawLines(body), Lines(body), i)
  {
    RelayKeepsCR(body);
    RelayedTwice(body);
  }

  lemma CarriageReturnFreeIsIdempotent(body: string)
    requires '\r' !in body
    ensures Events(Render(Events(body))) == Events(body)
  {
    LinesAreClean(body);
    RelayedAreData(Lines(body));
    RelayedTwice(body);
  }

  // ---------------------------------------------------------------- a connection that breaks

  /** The first line as the scanner hands it out, and what follows its line feed. */
  function FirstText(body: string): string { DropCR(body[..LineEnd(body)]) }

  function AfterLine(body: string): string
    requires LineEnd(body) < |body|
  {
    body[LineEnd(body) + 1..]
  }

  /**
    Where the upstream may break after `p` bytes without tearing an event: the scanner hands out the
    unfinished last line, so that line must not be data, or must already be whole, or come after DONE.
   */
  predicate CleanCut(body: string, p: nat)
    requires p <= |body|
    decreases |body|
  {
    if p <= LineEnd(body) then
      || !IsData(DropCR(body[..p]))
      || p >= MAX_TOKEN
      || (ScanOne(body).Line? && FirstText(body) == DropCR(body[..p]))
    else
      || LineEnd(body) + 1 > MAX_TOKEN
      || FirstText(body) == DONE
      || CleanCut(AfterLine(body), p - LineEnd(body) - 1)
  }

  lemma UnfinishedLine(body: string, p: nat)
    requires p <= LineEnd(body)
    ensures Events(body[..p]) ==
            if p < MAX_TOKEN && IsData(DropCR(body[..p])) then [DropCR(body[..p])] else []
  {
    var cut := body[..p];
    assert cut == body[..LineEnd(body)][..p];
    OnlyLine(cut);
  }

  lemma OnlyLine(t: string)
    requires LineEnd(t) == |t|
    ensures Events(t) == if |t| < MAX_TOKEN && IsData(DropCR(t)) then [DropCR(t)] else []
  {
    if t == "" {
      assert Lines(t) == [];
      assert !IsData("");
    } else if |t| >= MAX_TOKEN {
      assert Lines(t) == [];
    } else {
      LinesOfOne(t);
      OnlyEvent(DropCR(t));
    }
  }

  lemma LinesOfOne(t: string)
    requires t != "" && LineEnd(t) == |t| < MAX_TOKEN
    ensures Lines(t) == [DropCR(t)]
  {
  }

  lemma OnlyEvent(line: string)
    ensures Relayed([line]) == if IsData(line) then [line] else []
  {
  }

  lemma {:induction false} WholeLine(body: string, p: nat)
    requires LineEnd(body) < p <= |body|
    ensures LineEnd(body[..p]) == LineEnd(body) && FirstText(body[..p]) == FirstText(body)
    ensures AfterLine(body[..p]) == AfterLine(body)[..p - LineEnd(body) - 1]
  {
    var n := LineEnd(body);
    var tail := AfterLine(body)[..p - n - 1];
    LineEndAt(body[..n], tail);
    assert body[..p] == body[..n] + "\n" + tail;
    assert body[..p][..n] == body[..n];
  }

  lemma PrefixCons(line: string, x: seq<string>, y: seq<string>)
    ensures [line] + x <= [line] + y <==> x <= y
  {
    var a, b := [line] + x, [line] + y;
    assert a[1..] == x && b[1..] == y;
    if x <= y {
      assert b[..|a|] == [line] + y[..|x|];
    }
    if a <= b {
      assert x == b[..|a|][1..] == y[..|x|];
    }
  }

  lemma SameHead(line: string, a: seq<string>, b: seq<string>)
    ensures Relayed([line] + a) <= Relayed([line] + b) <==> line == DONE || Relayed(a) <= Relayed(b)
  {
    assert ([line] + a)[1..] == a && ([line] + b)[1..] == b;
    PrefixCons(line, Relayed(a), Relayed(b));
    assert [] + Relayed(a) == Relayed(a) && [] + Relayed(b) == Relayed(b);
  }

  lemma FirstScan(t: string)
    requires 0 < |t| && LineEnd(t) < MAX_TOKEN
    ensures ScanOne(t) == Line(FirstText(t), if LineEnd(t) == |t| then "" else AfterLine(t))
    ensures LineEnd(t) < |t| ==> Lines(t) == [FirstText(t)] + Lines(AfterLine(t))
  {
    assert t[..|t|] == t;
  }

  lemma LineStaysData(body: string, p: nat)
    requires p <= LineEnd(body) && IsData(DropCR(body[..p])) && ScanOne(body).Line?
    ensures ScanOne(body).text == FirstText(body) && IsData(FirstText(body))
  {
    var line := body[..LineEnd(body)];
    assert line[..p] == body[..p];
    FirstScan(body);
  }

  lemma CutInFirstLine(body: string, p: nat)
    requires p <= LineEnd(body)
    ensures Events(body[..p]) <= Events(body) <==> CleanCut(body, p)
  {
    UnfinishedLine(body, p);
    var d := DropCR(body[..p]);
    if p < MAX_TOKEN && IsData(d) {
      if ScanOne(body).Line? {
        LineStaysData(body, p);
      }
    }
  }

  lemma SameFirstLine(cut: string, body: string, cut': string, body': string, line: string)
    requires Lines(cut) == [line] + Lines(cut') && Lines(body) == [line] + Lines(body')
    ensures Events(cut) <= Events(body) <==> line == DONE || Events(cut') <= Events(body')
  {
    SameHead(line, Lines(cut'), Lines(body'));
  }

  lemma CutLater(body: string, p: nat)
    requires LineEnd(body) < p <= |body| && LineEnd(body) + 1 <= MAX_TOKEN
    ensures Events(body[..p]) <= Events(body) <==>
            FirstText(body) == DONE || Events(AfterLine(body)[..p - LineEnd(body) - 1]) <= Events(AfterLine(body))
  {
    WholeLine(body, p);
    FirstScan(body);
    var cut := body[..p];
    FirstScan(cut);
    SameFirstLine(cut, body, AfterLine(cut), AfterLine(body), FirstText(body));
  }

  lemma OverlongFirstLine(body: string, p: nat)
    requires LineEnd(body) < p <= |body| && LineEnd(body) + 1 > MAX_TOKEN
    ensures Events(body[..p]) == [] && CleanCut(body, p)
  {
  }

  /** After a read error at byte `p` the client holds a prefix of the full relay exactly for a clean cut. */
  lemma {:induction false} BrokenReadExact(body: string, p: nat)
    requires p <= |body|
    ensures Events(body[..p]) <= Events(body) <==> CleanCut(body, p)
    decreases |body|
  {
    if p <= LineEnd(body) {
      CutInFirstLine(body, p);
    } else if LineEnd(body) + 1 > MAX_TOKEN {
      OverlongFirstLine(body, p);
    } else {
      BrokenReadExact(AfterLine(body), p - LineEnd(body) - 1);
      CutLater(body, p);
    }
  }
}
