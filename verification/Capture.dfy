/** The bounded capture of a child's two streams. A read may return any part of what the child has
    written, in any order between the streams; a write is complete or raises; signals and the
    deadline may fall at any turn of the loop. */
module Capture {
  import opened Symbols
  import opened Octets

  datatype Stream = Stdout | Stderr

  datatype Outcome =
    | ChildExit | ChildSignal | Interrupted | StdoutLimit | StderrLimit | TimedOut | WrapperError

  /** One readable descriptor: `offered` is what the pipe holds at that moment, 0 when it would block. */
  datatype Event = Event(stream: Stream, offered: nat, writeOk: bool)

  /** One turn of the loop. */
  datatype Turn = Turn(signal: Option<int>, late: bool, events: seq<Event>, exited: bool)

  /** Everything the child will ever write, the limits, and the sizes of the files at opening. */
  datatype Setup = Setup(
    out: seq<Octet>, err: seq<Octet>, outLimit: nat, errLimit: nat, outInitial: nat, errInitial: nat)
  {
    function Bytes(s: Stream): seq<Octet> { if s == Stdout then out else err }
    function Limit(s: Stream): nat { if s == Stdout then outLimit else errLimit }
    function Initial(s: Stream): nat { if s == Stdout then outInitial else errInitial }
  }

  const ReadChunk: nat := 65_536

  datatype Stop = Running | Finished | Stopped(outcome: Outcome)

  datatype Progress = Progress(outWritten: nat, errWritten: nat, open: set<Stream>, stop: Stop) {
    function Written(s: Stream): nat { if s == Stdout then outWritten else errWritten }

    function Advance(s: Stream, n: nat): Progress {
      if s == Stdout then this.(outWritten := outWritten + n) else this.(errWritten := errWritten + n)
    }
  }

  const Start: Progress := Progress(0, 0, {Stdout, Stderr}, Running)

  function LimitOutcome(s: Stream): Outcome {
    if s == Stdout then StdoutLimit else StderrLimit
  }

  function Min(a: nat, b: nat): nat {
    if a < b then a else b
  }

  /** What a read returns: the next bytes of the stream, none of them at its end. */
  function Chunk(k: Setup, p: Progress, e: Event): seq<Octet> {
    var n, w := Min(e.offered, ReadChunk), p.Written(e.stream);
    if w <= |k.Bytes(e.stream)| then k.Bytes(e.stream)[w..w + Min(n, |k.Bytes(e.stream)| - w)] else []
  }

  function Available(k: Setup, p: Progress, s: Stream): int {
    k.Limit(s) - k.Initial(s) - p.Written(s)
  }

  function OnEvent(k: Setup, p: Progress, e: Event): Progress {
    if p.stop != Running || e.stream !in p.open || e.offered == 0 then p
    else
      var chunk, available := Chunk(k, p, e), Available(k, p, e.stream);
      if chunk == [] then p.(open := p.open - {e.stream})
      else if |chunk| > available then
        if available > 0 && !e.writeOk then p.(stop := Stopped(WrapperError))
        else p.Advance(e.stream, if available > 0 then available else 0).(stop := Stopped(LimitOutcome(e.stream)))
      else if !e.writeOk then p.(stop := Stopped(WrapperError))
      else p.Advance(e.stream, |chunk|)
  }

  function OnEvents(k: Setup, p: Progress, events: seq<Event>): Progress {
    if events == [] then p else OnEvent(k, OnEvents(k, p, events[..|events| - 1]), events[|events| - 1])
  }

  function OnTurn(k: Setup, p: Progress, turn: Turn): Progress {
    if p.stop != Running then p
    else if turn.signal.Some? then p.(stop := Stopped(Interrupted))
    else if turn.late then p.(stop := Stopped(TimedOut))
    else
      var q := OnEvents(k, p, turn.events);
      if q.stop == Running && turn.exited && q.open == {} then q.(stop := Finished) else q
  }

  function OnTurns(k: Setup, turns: seq<Turn>): Progress {
    if turns == [] then Start else OnTurn(k, OnTurns(k, turns[..|turns| - 1]), turns[|turns| - 1])
  }

  // ---- What every interleaving keeps ----

  /** What is written is a part of the stream within the limit, the whole stream once its end was
      read, and exactly the limit when that stream's own limit stopped the run. */
  predicate StreamOk(k: Setup, p: Progress, s: Stream) {
    && p.Written(s) <= |k.Bytes(s)|
    && k.Initial(s) + p.Written(s) <= k.Limit(s)
    && (s !in p.open ==> p.Written(s) == |k.Bytes(s)|)
    && (p.stop == Stopped(LimitOutcome(s)) ==> k.Initial(s) + p.Written(s) == k.Limit(s) && p.Written(s) < |k.Bytes(s)|)
  }

  predicate ProgressOk(k: Setup, p: Progress) {
    && StreamOk(k, p, Stdout) && StreamOk(k, p, Stderr)
    && (p.stop == Finished ==> p.open == {})
    && p.stop != Stopped(ChildExit) && p.stop != Stopped(ChildSignal)
  }

  predicate FitsInitially(k: Setup) {
    k.outInitial <= k.outLimit && k.errInitial <= k.errLimit
  }

  lemma EventKeeps(k: Setup, p: Progress, e: Event)
    requires ProgressOk(k, p)
    ensures ProgressOk(k, OnEvent(k, p, e))
  {
  }

  lemma {:induction false} EventsKeep(k: Setup, p: Progress, events: seq<Event>)
    requires ProgressOk(k, p)
    ensures ProgressOk(k, OnEvents(k, p, events))
  {
    if events != [] {
      EventsKeep(k, p, events[..|events| - 1]);
      EventKeeps(k, OnEvents(k, p, events[..|events| - 1]), events[|events| - 1]);
    }
  }

  /** Every interleaving of reads, writes, signals and deadlines keeps each stream's guarantee. */
  lemma {:induction false} TurnsKeep(k: Setup, turns: seq<Turn>)
    requires FitsInitially(k)
    ensures ProgressOk(k, OnTurns(k, turns))
  {
    if turns != [] {
      var m := |turns| - 1;
      TurnsKeep(k, turns[..m]);
      EventsKeep(k, OnTurns(k, turns[..m]), turns[m].events);
    }
  }

  /** A run that ends with the child has captured both streams whole, so they were within their
      limits; a stream longer than its room never ends that way. */
  lemma FinishedIsWhole(k: Setup, turns: seq<Turn>)
    requires FitsInitially(k) && OnTurns(k, turns).stop == Finished
    ensures OnTurns(k, turns).outWritten == |k.out| <= k.outLimit - k.outInitial
    ensures OnTurns(k, turns).errWritten == |k.err| <= k.errLimit - k.errInitial
  {
    TurnsKeep(k, turns);
  }

  // ---- When each outcome arises ----

  /** The run has not stopped before turn i. */
  ghost predicate RunningAt(k: Setup, turns: seq<Turn>, i: int) {
    0 <= i < |turns| && OnTurns(k, turns[..i]).stop == Running
  }

  /** Turn i stops the run so. */
  ghost predicate StopsAt(k: Setup, turns: seq<Turn>, i: int, how: Stop) {
    RunningAt(k, turns, i) && OnTurn(k, OnTurns(k, turns[..i]), turns[i]).stop == how
  }

  /** A run that has stopped was stopped by one of its turns, and so. */
  lemma {:induction false} StoppedBy(k: Setup, turns: seq<Turn>, how: Stop)
    requires how != Running
    ensures OnTurns(k, turns).stop == how <==> exists i :: StopsAt(k, turns, i, how)
  {
    hide OnTurn;
    if turns != [] {
      var m := |turns| - 1;
      StoppedBy(k, turns[..m], how);
      if OnTurns(k, turns).stop == how {
        if OnTurns(k, turns[..m]).stop == Running {
          assert StopsAt(k, turns, m, how);
        } else {
          StaysStopped(k, OnTurns(k, turns[..m]), turns[m]);
          var i :| StopsAt(k, turns[..m], i, how);
          assert turns[..m][..i] == turns[..i];
          assert StopsAt(k, turns, i, how);
        }
      }
      if i: int :| StopsAt(k, turns, i, how) {
        if i < m {
          assert turns[..m][..i] == turns[..i];
          assert StopsAt(k, turns[..m], i, how);
          StaysStopped(k, OnTurns(k, turns[..m]), turns[m]);
        }
      }
    }
  }

  lemma StaysStopped(k: Setup, p: Progress, turn: Turn)
    requires p.stop != Running
    ensures OnTurn(k, p, turn) == p
  {
  }

  /** Reads and writes alone stop a run only at a limit or by a failed write. */
  lemma {:induction false} ReadsStop(k: Setup, p: Progress, events: seq<Event>)
    requires p.stop == Running
    ensures OnEvents(k, p, events).stop in
            {Running, Stopped(StdoutLimit), Stopped(StderrLimit), Stopped(WrapperError)}
  {
    hide OnEvent;
    if events != [] {
      var m := |events| - 1;
      ReadsStop(k, p, events[..m]);
      ReadStops(k, OnEvents(k, p, events[..m]), events[m]);
    }
  }

  lemma ReadStops(k: Setup, p: Progress, e: Event)
    ensures OnEvent(k, p, e).stop in {p.stop, Stopped(StdoutLimit), Stopped(StderrLimit), Stopped(WrapperError)}
  {
  }

  /** One event stops a running capture at a stream's limit exactly when it reads more than there is
      room for and what fits could be written; a failed write stops it as an error. */
  lemma EventStops(k: Setup, p: Progress, e: Event)
    requires ProgressOk(k, p) && p.stop == Running
    ensures var s := e.stream;
            var left := |k.Bytes(s)| - p.Written(s);
            var got := if e.offered < 65536 then (if e.offered < left then e.offered else left) else if 65536 < left then 65536 else left;
            var room := k.Limit(s) - (k.Initial(s) + p.Written(s));
            var q := OnEvent(k, p, e);
            && (q.stop == Stopped(if s == Stdout then StdoutLimit else StderrLimit) <==>
                s in p.open && got > room && (room > 0 ==> e.writeOk))
            && (q.stop == Stopped(WrapperError) <==> s in p.open && got > 0 && !e.writeOk && room > 0)
            && (q.stop == Running && s in p.open && got > 0 ==> q.Written(s) == p.Written(s) + got && q.open == p.open)
            && (s !in q.open && s in p.open <==> s in p.open && e.offered > 0 && left == 0)
  {
  }

  /** Exactly when a run is interrupted, timed out, or ends with the child. */
  lemma OutcomeArises(k: Setup, turns: seq<Turn>)
    ensures OnTurns(k, turns).stop == Stopped(Interrupted) <==>
            exists i :: RunningAt(k, turns, i) && turns[i].signal.Some?
    ensures OnTurns(k, turns).stop == Stopped(TimedOut) <==>
            exists i :: RunningAt(k, turns, i) && turns[i].signal.None? && turns[i].late
    ensures OnTurns(k, turns).stop == Finished <==>
            exists i :: RunningAt(k, turns, i) && turns[i].signal.None? && !turns[i].late && turns[i].exited
                        && BothEnded(OnEvents(k, OnTurns(k, turns[..i]), turns[i].events))
  {
    hide OnTurns, OnEvents, OnTurn, BothEnded;
    StoppedBy(k, turns, Stopped(Interrupted));
    StoppedBy(k, turns, Stopped(TimedOut));
    StoppedBy(k, turns, Finished);
    forall i | RunningAt(k, turns, i)
      ensures StopsAt(k, turns, i, Stopped(Interrupted)) <==> turns[i].signal.Some?
      ensures StopsAt(k, turns, i, Stopped(TimedOut)) <==> turns[i].signal.None? && turns[i].late
      ensures StopsAt(k, turns, i, Finished) <==>
              turns[i].signal.None? && !turns[i].late && turns[i].exited
              && BothEnded(OnEvents(k, OnTurns(k, turns[..i]), turns[i].events))
    {
      TurnStops(k, OnTurns(k, turns[..i]), turns[i]);
    }
  }

  /** Both streams have been read to their end and nothing has stopped the run. */
  predicate BothEnded(p: Progress) {
    p.stop == Running && Stdout !in p.open && Stderr !in p.open
  }

  lemma TurnStops(k: Setup, p: Progress, turn: Turn)
    requires p.stop == Running
    ensures OnTurn(k, p, turn).stop == Stopped(Interrupted) <==> turn.signal.Some?
    ensures OnTurn(k, p, turn).stop == Stopped(TimedOut) <==> turn.signal.None? && turn.late
    ensures OnTurn(k, p, turn).stop == Finished <==>
            turn.signal.None? && !turn.late && turn.exited && BothEnded(OnEvents(k, p, turn.events))
  {
    ReadsStop(k, p, turn.events);
    var q := OnEvents(k, p, turn.events);
    hide OnEvents;
    assert q.open == {} <==> Stdout !in q.open && Stderr !in q.open by {
      if Stdout !in q.open && Stderr !in q.open {
        forall x: Stream ensures x !in q.open { match x case Stdout => case Stderr => }
      }
    }
  }

  /** A run still going at turn i has met no signal before it. */
  lemma {:induction false} NoSignalSoFar(k: Setup, turns: seq<Turn>, i: nat)
    requires i <= |turns| && OnTurns(k, turns[..i]).stop == Running
    ensures SignalOf(turns[..i]).None? && forall j :: 0 <= j < i ==> turns[j].signal.None?
  {
    if i > 0 {
      TurnsAppend(k, turns, i - 1);
      NoSignalSoFar(k, turns, i - 1);
    }
  }

  /** The signal reported is that of the first turn that carries one. */
  lemma InterruptedBy(k: Setup, turns: seq<Turn>) returns (i: nat)
    requires OnTurns(k, turns).stop == Stopped(Interrupted)
    ensures i < |turns| && turns[i].signal.Some? && SignalOf(turns) == turns[i].signal
    ensures forall j :: 0 <= j < i ==> turns[j].signal.None?
  {
    hide OnTurns;
    OutcomeArises(k, turns);
    var n :| RunningAt(k, turns, n) && turns[n].signal.Some?;
    i := n;
    NoSignalSoFar(k, turns, i);
    TurnsAppend(k, turns, i);
    SignalStays(turns, i + 1);
  }

  // ---- The command ----

  datatype CaptureResult = CaptureResult(
    outcome: Outcome, childReturncode: Option<int>, childSignal: Option<int>,
    stdoutWritten: nat, stdoutTotal: nat, stderrWritten: nat, stderrTotal: nat, exitStatus: int)

  const ExitTimeout: int := 124
  const ExitLimit: int := 125
  const ExitWrapperError: int := 126

  /** The signal that interrupted the run, if one did. */
  function SignalOf(turns: seq<Turn>): Option<int> {
    if turns == [] then None
    else
      var before := SignalOf(turns[..|turns| - 1]);
      if before.Some? then before else turns[|turns| - 1].signal
  }

  /** What the run reports: turns that run out stand for the deadline. */
  function Report(k: Setup, p: Progress, returncode: int, signal: int): CaptureResult {
    var outcome := match p.stop
      case Running => TimedOut
      case Finished => if returncode < 0 then ChildSignal else ChildExit
      case Stopped(o) => o;
    CaptureResult(
      outcome,
      if outcome == ChildExit then Some(returncode) else None,
      if outcome == ChildSignal then Some(-returncode) else if outcome == Interrupted then Some(signal) else None,
      p.outWritten, k.outInitial + p.outWritten, p.errWritten, k.errInitial + p.errWritten,
      match outcome
      case ChildExit => returncode
      case ChildSignal => 128 - returncode
      case Interrupted => 128 + signal
      case TimedOut => ExitTimeout
      case WrapperError => ExitWrapperError
      case _ => ExitLimit)
  }

  /** The exit status and the child's fate go with the outcome, and only with it. */
  predicate StatusTold(r: CaptureResult, returncode: int) {
    && (r.outcome in {StdoutLimit, StderrLimit} ==> r.exitStatus == 125)
    && (r.outcome == TimedOut ==> r.exitStatus == 124)
    && (r.outcome == WrapperError ==> r.exitStatus == 126)
    && (r.outcome in {StdoutLimit, StderrLimit, TimedOut, WrapperError} ==> r.childReturncode == None && r.childSignal == None)
    && (r.outcome == Interrupted ==> r.childReturncode == None && r.childSignal.Some? && r.exitStatus == 128 + r.childSignal.value)
    && (r.outcome == ChildExit ==>
          r.childReturncode == Some(returncode) && r.childSignal == None && r.exitStatus == returncode && returncode >= 0)
    && (r.outcome == ChildSignal ==>
          r.childReturncode == None && r.childSignal == Some(-returncode) && r.exitStatus == 128 - returncode && returncode < 0)
  }

  /** What a started run reports after its turns. */
  function Reported(k: Setup, turns: seq<Turn>, returncode: int): CaptureResult {
    Report(k, OnTurns(k, turns), returncode, if SignalOf(turns).Some? then SignalOf(turns).value else 0)
  }

  class CaptureFile {
    var contents: seq<Octet>

    constructor (contents: seq<Octet>)
      ensures this.contents == contents
    {
      this.contents := contents;
    }

    /** A complete write, or an exception and no write. */
    method Write(chunk: seq<Octet>, writeOk: bool) returns (written: bool)
      modifies this
      ensures written == writeOk
      ensures contents == old(contents) + if writeOk then chunk else []
    {
      written := writeOk;
      if writeOk {
        contents := contents + chunk;
      } else {
        assert contents + [] == contents;
      }
    }
  }

  /** A file holds its initial content followed by what has been written of a stream. */
  ghost predicate Holds(contents: seq<Octet>, initial: seq<Octet>, bytes: seq<Octet>, n: nat) {
    n <= |bytes| && contents == initial + bytes[..n]
  }

  lemma HoldsMore(contents: seq<Octet>, initial: seq<Octet>, bytes: seq<Octet>, n: nat, chunk: seq<Octet>, m: nat)
    requires Holds(contents, initial, bytes, n) && m <= |chunk| && n + |chunk| <= |bytes| && chunk == bytes[n..n + |chunk|]
    ensures Holds(contents + chunk[..m], initial, bytes, n + m)
  {
    assert bytes[..n + m] == bytes[..n] + chunk[..m];
  }

  /** One event: read a chunk, then write as much of it as the limit leaves room for. */
  method HandleEvent(k: Setup, file: CaptureFile, ghost initial: seq<Octet>, p: Progress, e: Event) returns (q: Progress)
    requires ProgressOk(k, p) && p.stop == Running
    requires Holds(file.contents, initial, k.Bytes(e.stream), p.Written(e.stream))
    modifies file
    ensures q == OnEvent(k, p, e)
    ensures Holds(file.contents, initial, k.Bytes(e.stream), q.Written(e.stream))
  {
    q := p;
    if e.stream !in p.open || e.offered == 0 { return; }
    var chunk := Chunk(k, p, e);
    if chunk == [] {
      q := q.(open := q.open - {e.stream});
      return;
    }
    ghost var bytes, n := k.Bytes(e.stream), p.Written(e.stream);
    assert n + |chunk| <= |bytes| && chunk == bytes[n..n + |chunk|];
    var available := Available(k, p, e.stream);
    if |chunk| > available {
      if available > 0 {
        HoldsMore(file.contents, initial, bytes, n, chunk, available);
        var written := file.Write(chunk[..available], e.writeOk);
        if !written {
          q := q.(stop := Stopped(WrapperError));
          return;
        }
        q := q.Advance(e.stream, available);
      }
      q := q.(stop := Stopped(LimitOutcome(e.stream)));
      return;
    }
    HoldsMore(file.contents, initial, bytes, n, chunk, |chunk|);
    assert chunk[..|chunk|] == chunk;
    var written := file.Write(chunk, e.writeOk);
    if !written {
      q := q.(stop := Stopped(WrapperError));
      return;
    }
    q := q.Advance(e.stream, |chunk|);
  }

  /** The command's loop over turns. Both files were opened within their limits. */
  method CaptureStreams(
    k: Setup, stdout: CaptureFile, stderr: CaptureFile, turns: seq<Turn>, returncode: int) returns (result: CaptureResult)
    requires stdout != stderr
    requires |stdout.contents| == k.outInitial <= k.outLimit && |stderr.contents| == k.errInitial <= k.errLimit
    modifies stdout, stderr
    ensures result == Reported(k, turns, returncode)
    ensures StatusTold(result, returncode)
    ensures result.outcome == Interrupted ==>
              exists i :: 0 <= i < |turns| && turns[i].signal.Some? && (forall j :: 0 <= j < i ==> turns[j].signal.None?)
                          && result.childSignal == turns[i].signal && result.exitStatus == 128 + turns[i].signal.value
    ensures result.outcome == Interrupted <==> exists i :: RunningAt(k, turns, i) && turns[i].signal.Some?
    ensures result.outcome == TimedOut <==>
              OnTurns(k, turns).stop == Running || exists i :: RunningAt(k, turns, i) && turns[i].signal.None? && turns[i].late
    ensures Holds(stdout.contents, old(stdout.contents), k.out, result.stdoutWritten)
    ensures Holds(stderr.contents, old(stderr.contents), k.err, result.stderrWritten)
    ensures |stdout.contents| == result.stdoutTotal <= k.outLimit && |stderr.contents| == result.stderrTotal <= k.errLimit
    ensures result.outcome == StdoutLimit ==> |stdout.contents| == k.outLimit && result.stdoutWritten < |k.out|
    ensures result.outcome == StderrLimit ==> |stderr.contents| == k.errLimit && result.stderrWritten < |k.err|
    ensures result.outcome in {ChildExit, ChildSignal} ==>
              stdout.contents == old(stdout.contents) + k.out && stderr.contents == old(stderr.contents) + k.err
  {
    hide OnEvent, StatusTold, RunningAt;
    var p, received := Start, None;
    ghost var out0, err0 := stdout.contents, stderr.contents;
    var i := 0;
    while i < |turns| && p.stop == Running
      invariant i <= |turns| && ProgressOk(k, p)
      invariant p == OnTurns(k, turns[..i]) && received == SignalOf(turns[..i])
      invariant p.stop == Stopped(Interrupted) ==> received.Some?
      invariant Holds(stdout.contents, out0, k.out, p.outWritten) && Holds(stderr.contents, err0, k.err, p.errWritten)
    {
      var turn := turns[i];
      TurnsAppend(k, turns, i);
      TurnsKeep(k, turns[..i + 1]);
      if received.None? { received := turn.signal; }
      if turn.signal.Some? {
        p := p.(stop := Stopped(Interrupted));
      } else if turn.late {
        p := p.(stop := Stopped(TimedOut));
      } else {
        NoSignalFromReads(k, p, turn.events);
        p := HandleEvents(k, stdout, stderr, out0, err0, p, turn.events);
        if p.stop == Running && turn.exited && p.open == {} {
          p := p.(stop := Finished);
        }
      }
      i := i + 1;
    }
    RestIgnored(k, turns, i);
    SignalStays(turns, i);
    TurnsKeep(k, turns);
    result := Report(k, p, returncode, if received.Some? then received.value else 0);
    ReportedTold(k, turns, returncode);
    assert k.out[..|k.out|] == k.out && k.err[..|k.err|] == k.err;
  }

  /** The events of one turn, until one of them stops the run. */
  method HandleEvents(
    k: Setup, stdout: CaptureFile, stderr: CaptureFile, ghost out0: seq<Octet>, ghost err0: seq<Octet>, p: Progress, events: seq<Event>)
    returns (q: Progress)
    requires stdout != stderr && ProgressOk(k, p) && p.stop == Running
    requires Holds(stdout.contents, out0, k.out, p.outWritten) && Holds(stderr.contents, err0, k.err, p.errWritten)
    modifies stdout, stderr
    ensures q == OnEvents(k, p, events) && ProgressOk(k, q)
    ensures Holds(stdout.contents, out0, k.out, q.outWritten) && Holds(stderr.contents, err0, k.err, q.errWritten)
  {
    hide OnEvent, ProgressOk, Holds;
    q := p;
    var j := 0;
    while j < |events| && q.stop == Running
      invariant j <= |events| && q == OnEvents(k, p, events[..j]) && ProgressOk(k, q)
      invariant Holds(stdout.contents, out0, k.out, q.outWritten) && Holds(stderr.contents, err0, k.err, q.errWritten)
    {
      var e := events[j];
      assert events[..j + 1][..j] == events[..j];
      EventKeeps(k, q, e);
      OtherStream(k, q, e);
      if e.stream == Stdout {
        q := HandleEvent(k, stdout, out0, q, e);
      } else {
        q := HandleEvent(k, stderr, err0, q, e);
      }
      j := j + 1;
    }
    EventsIgnored(k, p, events, j);
  }

  lemma OtherStream(k: Setup, p: Progress, e: Event)
    ensures e.stream == Stdout ==> OnEvent(k, p, e).errWritten == p.errWritten
    ensures e.stream == Stderr ==> OnEvent(k, p, e).outWritten == p.outWritten
  {
  }

  lemma {:induction false} EventsIgnored(k: Setup, p: Progress, events: seq<Event>, j: nat)
    requires j <= |events| && (j < |events| ==> OnEvents(k, p, events[..j]).stop != Running)
    ensures OnEvents(k, p, events) == OnEvents(k, p, events[..j])
    decreases |events|
  {
    if j < |events| {
      var m := |events| - 1;
      assert events[..m][..j] == events[..j];
      EventsIgnored(k, p, events[..m], j);
    } else {
      assert events[..j] == events;
    }
  }

  lemma TurnsAppend(k: Setup, turns: seq<Turn>, i: nat)
    requires i < |turns|
    ensures OnTurns(k, turns[..i + 1]) == OnTurn(k, OnTurns(k, turns[..i]), turns[i])
    ensures SignalOf(turns[..i + 1]) == if SignalOf(turns[..i]).Some? then SignalOf(turns[..i]) else turns[i].signal
  {
    assert turns[..i + 1][..i] == turns[..i];
  }

  lemma {:induction false} SignalStays(turns: seq<Turn>, i: nat)
    requires i <= |turns|
    ensures SignalOf(turns[..i]).Some? ==> SignalOf(turns) == SignalOf(turns[..i])
    decreases |turns|
  {
    if i < |turns| {
      var m := |turns| - 1;
      assert turns[..m][..i] == turns[..i];
      SignalStays(turns[..m], i);
    } else {
      assert turns[..i] == turns;
    }
  }

  lemma OnlyRead(k: Setup, p: Progress, e: Event)
    ensures OnEvent(k, p, e).stop != Stopped(Interrupted) || p.stop == Stopped(Interrupted)
  {
  }

  lemma {:induction false} NoSignalFromReads(k: Setup, p: Progress, events: seq<Event>)
    requires p.stop == Running
    ensures OnEvents(k, p, events).stop != Stopped(Interrupted)
  {
    hide OnEvent;
    if events != [] {
      var m := |events| - 1;
      NoSignalFromReads(k, p, events[..m]);
      OnlyRead(k, OnEvents(k, p, events[..m]), events[m]);
    }
  }

  /** Once the loop has stopped, later turns do not change the progress. */
  lemma {:induction false} RestIgnored(k: Setup, turns: seq<Turn>, i: nat)
    requires i <= |turns| && (i < |turns| ==> OnTurns(k, turns[..i]).stop != Running)
    ensures OnTurns(k, turns) == OnTurns(k, turns[..i])
    decreases |turns|
  {
    if i < |turns| {
      var m := |turns| - 1;
      assert turns[..m][..i] == turns[..i];
      RestIgnored(k, turns[..m], i);
    } else {
      assert turns[..i] == turns;
    }
  }

  /** The loop itself never reports the child's end. */
  lemma RunNeverClaimsChild(k: Setup, turns: seq<Turn>)
    requires FitsInitially(k)
    ensures OnTurns(k, turns).stop != Stopped(ChildExit) && OnTurns(k, turns).stop != Stopped(ChildSignal)
  {
    TurnsKeep(k, turns);
  }

  /** What the report of a started run says of its outcome. */
  lemma ReportedTold(k: Setup, turns: seq<Turn>, returncode: int)
    requires FitsInitially(k)
    ensures StatusTold(Reported(k, turns, returncode), returncode)
    ensures var r := Reported(k, turns, returncode);
            && (r.outcome == Interrupted ==>
                  exists i :: 0 <= i < |turns| && turns[i].signal.Some? && (forall j :: 0 <= j < i ==> turns[j].signal.None?)
                              && r.childSignal == turns[i].signal && r.exitStatus == 128 + turns[i].signal.value)
            && (r.outcome == Interrupted <==> exists i :: RunningAt(k, turns, i) && turns[i].signal.Some?)
            && (r.outcome == TimedOut <==>
                  OnTurns(k, turns).stop == Running || exists i :: RunningAt(k, turns, i) && turns[i].signal.None? && turns[i].late)
  {
    hide OnTurns, RunningAt, SignalOf;
    OutcomeArises(k, turns);
    RunNeverClaimsChild(k, turns);
    if OnTurns(k, turns).stop == Stopped(Interrupted) {
      var first := InterruptedBy(k, turns);
    }
  }

  /** How the command starts: a signal already received, a spawn that fails, or a child. */
  datatype Launch = Signalled(signum: int) | SpawnFailed | Spawned

  /** A run in which no child was started. */
  function Unstarted(k: Setup, launch: Launch): CaptureResult
    requires !launch.Spawned?
  {
    Report(k, Start.(stop := Stopped(if launch.Signalled? then Interrupted else WrapperError)), 0,
           if launch.Signalled? then launch.signum else 0)
  }

  /** Open both destinations and run. A destination already over its limit stops the command
      before anything is written, and so does a signal or a failed spawn at the start. */
  method CaptureCommand(
    out: seq<Octet>, err: seq<Octet>, outLimit: nat, errLimit: nat, stdout: CaptureFile, stderr: CaptureFile,
    launch: Launch, turns: seq<Turn>, returncode: int) returns (result: Option<CaptureResult>)
    requires stdout != stderr
    modifies stdout, stderr
    ensures result.None? <==> |old(stdout.contents)| > outLimit || |old(stderr.contents)| > errLimit
    ensures result.None? || !launch.Spawned? ==>
              stdout.contents == old(stdout.contents) && stderr.contents == old(stderr.contents)
    ensures result.Some? ==>
      var k := Setup(out, err, outLimit, errLimit, |old(stdout.contents)|, |old(stderr.contents)|);
      result.value == if launch.Spawned? then Reported(k, turns, returncode) else Unstarted(k, launch)
    ensures result.Some? ==> StatusTold(result.value, returncode)
    ensures result.Some? && launch.Signalled? ==>
      && result.value.outcome == Interrupted && result.value.childSignal == Some(launch.signum)
      && result.value.exitStatus == 128 + launch.signum
    ensures result.Some? && launch.SpawnFailed? ==> result.value.outcome == WrapperError && result.value.exitStatus == 126
    ensures result.Some? ==>
      && Holds(stdout.contents, old(stdout.contents), out, result.value.stdoutWritten) && |stdout.contents| <= outLimit
      && Holds(stderr.contents, old(stderr.contents), err, result.value.stderrWritten) && |stderr.contents| <= errLimit
  {
    if |stdout.contents| > outLimit || |stderr.contents| > errLimit { return None; }
    var k := Setup(out, err, outLimit, errLimit, |stdout.contents|, |stderr.contents|);
    if !launch.Spawned? {
      assert stdout.contents + out[..0] == stdout.contents && stderr.contents + err[..0] == stderr.contents;
      return Some(Unstarted(k, launch));
    }
    var r := CaptureStreams(k, stdout, stderr, turns, returncode);
    result := Some(r);
  }

  // ---- Repeated runs appending to one file ----

  /** One run as its standard output file sees it. */
  datatype Run = Run(out: seq<Octet>, err: seq<Octet>, errLimit: nat, errInitial: nat, turns: seq<Turn>)

  /** The file after runs that append to it under one limit. */
  function Appended(file: seq<Octet>, limit: nat, runs: seq<Run>): seq<Octet> {
    if runs == [] then file
    else
      var r, before := runs[|runs| - 1], Appended(file, limit, runs[..|runs| - 1]);
      if |before| > limit || r.errInitial > r.errLimit then before
      else
        var p := OnTurns(Setup(r.out, r.err, limit, r.errLimit, |before|, r.errInitial), r.turns);
        before + (if p.outWritten <= |r.out| then r.out[..p.outWritten] else [])
  }

  /** However often a file is appended to, what it held stays and the limit is never exceeded. */
  lemma {:induction false} AppendedBounded(file: seq<Octet>, limit: nat, runs: seq<Run>)
    requires |file| <= limit
    ensures file <= Appended(file, limit, runs) && |Appended(file, limit, runs)| <= limit
  {
    if runs != [] {
      var r, m := runs[|runs| - 1], |runs| - 1;
      AppendedBounded(file, limit, runs[..m]);
      var before := Appended(file, limit, runs[..m]);
      if r.errInitial <= r.errLimit {
        TurnsKeep(Setup(r.out, r.err, limit, r.errLimit, |before|, r.errInitial), r.turns);
      }
    }
  }
}
