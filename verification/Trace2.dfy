/** The Git Trace2 event reader: one pass over the interleaved events of many processes. */
module Trace2 {
  import opened Common
  import TextOrder

  /** A `value` field: absent, something that is not an unsigned integer, or a number. */
  datatype DataValue = MissingValue | NotNumeric | Number(n: U64)

  datatype Event =
    | Version
    | Data(key: Option<string>, value: DataValue)
    | Exit(code: Option<int>)
    | AtExit(code: Option<int>)
    | Other(name: string)

  /** One decoded line of the stream. `Undecodable` is a line that is not JSON, or JSON without a
      usable process id or event name. */
  datatype Line = Blank | Undecodable(json: bool) | Traced(sid: string, event: Event)

  datatype TraceError =
    | EmptyTrace
    | MalformedJson(line: nat)
    | InvalidEvent(line: nat)
    | IncompleteProcess(sid: string, missingExit: bool)
    | MismatchedCompletion(sid: string, exitCode: int, atExitCode: int)

  datatype ProcessTrace = ProcessTrace(exitCode: Option<int>, atExitCode: Option<int>)

  datatype Counters = Counters(receivedBytes: U64, sentBytes: U64, refs: U64, objects: U64, processes: U64)

  datatype GitTrace = GitTrace(counters: Counters, successful: bool)

  // ---- Counters --------------------------------------------------------------------------

  datatype Kind = ReceivedBytes | SentBytes | Refs | Objects | Processes

  predicate IsCounterKey(key: string) {
    key in {"bytes-received", "transfer/bytes-received", "bytes-sent", "transfer/bytes-sent", "fetch/ref-count",
            "ref-count", "negotiated-refs", "transfer/object-count", "object-count", "fetch/object-count"}
  }

  function KindOf(key: string): Option<Kind> {
    if key == "bytes-received" || key == "transfer/bytes-received" then Some(ReceivedBytes)
    else if key == "bytes-sent" || key == "transfer/bytes-sent" then Some(SentBytes)
    else if key == "fetch/ref-count" || key == "ref-count" || key == "negotiated-refs" then Some(Refs)
    else if key == "transfer/object-count" || key == "object-count" || key == "fetch/object-count" then Some(Objects)
    else None
  }

  function SaturatingAdd(a: U64, b: U64): U64 {
    Min(a + b, U64_MAX)
  }

  /** What one event adds to one counter. */
  function Contribution(e: Event, kind: Kind): U64 {
    match e
    case Version => if kind == Processes then 1 else 0
    case Data(Some(key), Number(n)) => if KindOf(key) == Some(kind) then n else 0
    case _ => 0
  }

  function Sum(lines: seq<Line>, kind: Kind): nat
    decreases |lines|
  {
    if lines == [] then 0
    else
      var last := lines[|lines| - 1];
      Sum(lines[..|lines| - 1], kind) + (if last.Traced? then Contribution(last.event, kind) else 0)
  }

  /** The capped sum of every counter over the whole stream. */
  function Totals(lines: seq<Line>): Counters {
    Counters(Min(Sum(lines, ReceivedBytes), U64_MAX), Min(Sum(lines, SentBytes), U64_MAX), Min(Sum(lines, Refs), U64_MAX),
             Min(Sum(lines, Objects), U64_MAX), Min(Sum(lines, Processes), U64_MAX))
  }

  function Merge(a: Counters, b: Counters): Counters {
    Counters(SaturatingAdd(a.receivedBytes, b.receivedBytes), SaturatingAdd(a.sentBytes, b.sentBytes),
             SaturatingAdd(a.refs, b.refs), SaturatingAdd(a.objects, b.objects), SaturatingAdd(a.processes, b.processes))
  }

  /** The counters after one more event. */
  function Counted(c: Counters, e: Event): Counters {
    Counters(SaturatingAdd(c.receivedBytes, Contribution(e, ReceivedBytes)), SaturatingAdd(c.sentBytes, Contribution(e, SentBytes)),
             SaturatingAdd(c.refs, Contribution(e, Refs)), SaturatingAdd(c.objects, Contribution(e, Objects)),
             SaturatingAdd(c.processes, Contribution(e, Processes)))
  }

  /** Which counter each key feeds; no other key feeds any, and only a process's version event counts
      a process. */
  lemma KeysFeedTheirCounters(key: string, n: U64)
    ensures KindOf(key).Some? <==> IsCounterKey(key)
    ensures Contribution(Data(Some(key), Number(n)), ReceivedBytes) == if key in {"bytes-received", "transfer/bytes-received"} then n else 0
    ensures Contribution(Data(Some(key), Number(n)), SentBytes) == if key in {"bytes-sent", "transfer/bytes-sent"} then n else 0
    ensures Contribution(Data(Some(key), Number(n)), Refs) == if key in {"fetch/ref-count", "ref-count", "negotiated-refs"} then n else 0
    ensures Contribution(Data(Some(key), Number(n)), Objects)
      == if key in {"transfer/object-count", "object-count", "fetch/object-count"} then n else 0
    ensures Contribution(Data(Some(key), Number(n)), Processes) == 0 && Contribution(Version, Processes) == 1
    ensures Contribution(Version, ReceivedBytes) == Contribution(Version, SentBytes) == Contribution(Version, Refs) == 0
    ensures Contribution(Version, Objects) == 0
  {
  }

  // ---- What a valid stream is ------------------------------------------------------------

  predicate WellFormedEvent(e: Event) {
    match e
    case Version => true
    case Data(key, value) =>
      && key.Some? && key.value != "" && !value.MissingValue?
      && (KindOf(key.value).Some? ==> value.Number?)
    case Exit(code) => code.Some?
    case AtExit(code) => code.Some?
    case Other(_) => true
  }

  /** An event is well formed unless it is a data event without a key or value, or with a counter key and no
      number, or a completion without a code. */
  lemma WellFormedEventMeans(e: Event)
    ensures WellFormedEvent(e) <==>
      && (e.Data? ==>
            && e.key.Some? && e.key.value != "" && e.value != MissingValue
            && (IsCounterKey(e.key.value) ==> e.value.Number?))
      && (e.Exit? ==> e.code != None) && (e.AtExit? ==> e.code != None)
  {
  }

  predicate WellFormed(lines: seq<Line>) {
    forall i :: 0 <= i < |lines| ==> lines[i].Traced? && WellFormedEvent(lines[i].event)
  }

  /** The events of one process, in stream order. */
  function Projection(lines: seq<Line>, sid: string): seq<Event>
    decreases |lines|
  {
    if lines == [] then []
    else
      var last := lines[|lines| - 1];
      Projection(lines[..|lines| - 1], sid) + (if last.Traced? && last.sid == sid then [last.event] else [])
  }

  /** version, any other events, exit(c), atexit(c). */
  predicate IsLifecycle(events: seq<Event>, code: int) {
    var n := |events|;
    && n >= 3 && events[0] == Version
    && (forall i :: 0 < i < n - 2 ==> events[i].Data? || events[i].Other?)
    && events[n - 2] == Exit(Some(code)) && events[n - 1] == AtExit(Some(code))
  }

  ghost predicate Completes(lines: seq<Line>, sid: string) {
    exists code :: IsLifecycle(Projection(lines, sid), code)
  }

  predicate Appears(lines: seq<Line>, sid: string) {
    exists i :: 0 <= i < |lines| && lines[i].Traced? && lines[i].sid == sid
  }

  /** A non-empty stream of well-formed lines in which every process runs its whole life. */
  ghost predicate Accepted(lines: seq<Line>) {
    lines != [] && WellFormed(lines) && forall sid :: Appears(lines, sid) ==> Completes(lines, sid)
  }

  /** Every process of the stream exited with code zero. */
  ghost predicate Succeeds(lines: seq<Line>) {
    forall sid :: Appears(lines, sid) ==> IsLifecycle(Projection(lines, sid), 0)
  }

  // ---- One process at a time -------------------------------------------------------------

  datatype Phase = Unseen | Running | Exited(code: int) | Done(code: int)

  function Advance(phase: Phase, e: Event): Option<Phase> {
    match (phase, e)
    case (Unseen, Version) => Some(Running)
    case (Running, Data(_, _)) => Some(Running)
    case (Running, Other(_)) => Some(Running)
    case (Running, Exit(Some(c))) => Some(Exited(c))
    case (Exited(c), AtExit(Some(d))) => if c == d then Some(Done(c)) else None
    case _ => None
  }

  function PhaseAfter(events: seq<Event>): Option<Phase>
    decreases |events|
  {
    if events == [] then Some(Unseen)
    else
      match PhaseAfter(events[..|events| - 1])
      case Some(p) => Advance(p, events[|events| - 1])
      case None => None
  }

  lemma PhaseIsUnseen(events: seq<Event>)
    ensures PhaseAfter(events) == Some(Unseen) <==> events == []
  {
  }

  lemma {:induction false} PhaseIsRunning(events: seq<Event>)
    ensures PhaseAfter(events) == Some(Running)
      <==> events != [] && events[0] == Version && forall i :: 0 < i < |events| ==> events[i].Data? || events[i].Other?
    decreases |events|
  {
    if events != [] {
      var init := events[..|events| - 1];
      PhaseIsRunning(init);
      PhaseIsUnseen(init);
      assert forall i :: 0 <= i < |init| ==> init[i] == events[i];
    }
  }

  lemma PhaseIsExited(events: seq<Event>, c: int)
    ensures PhaseAfter(events) == Some(Exited(c))
      <==> events != [] && events[|events| - 1] == Exit(Some(c)) && PhaseAfter(events[..|events| - 1]) == Some(Running)
  {
  }

  /** The life-cycle shape is exactly what the per-process automaton completes on. */
  lemma PhaseIsDone(events: seq<Event>, c: int)
    ensures PhaseAfter(events) == Some(Done(c)) <==> IsLifecycle(events, c)
  {
    if |events| >= 2 {
      var init := events[..|events| - 1];
      var body := init[..|init| - 1];
      PhaseIsExited(init, c);
      PhaseIsRunning(body);
      assert forall i :: 0 <= i < |body| ==> body[i] == events[i];
      assert init[|init| - 1] == events[|events| - 2];
    } else if |events| == 1 {
      assert events[..0] == [];
    }
  }

  lemma {:induction false} FailedStaysFailed(events: seq<Event>, k: nat)
    requires k <= |events| && PhaseAfter(events[..k]).None?
    ensures PhaseAfter(events).None?
    decreases |events|
  {
    if k < |events| {
      assert events[..|events| - 1][..k] == events[..k];
      FailedStaysFailed(events[..|events| - 1], k);
    } else {
      assert events[..k] == events;
    }
  }

  // ---- Projections -----------------------------------------------------------------------

  function EventFor(line: Line, sid: string): seq<Event> {
    if line.Traced? && line.sid == sid then [line.event] else []
  }

  lemma ProjectionStep(lines: seq<Line>, k: nat, sid: string)
    requires k < |lines|
    ensures Projection(lines[..k + 1], sid) == Projection(lines[..k], sid) + EventFor(lines[k], sid)
  {
    assert lines[..k + 1][..k] == lines[..k];
  }

  lemma PhaseStep(events: seq<Event>, e: Event)
    ensures PhaseAfter(events + [e]) == match PhaseAfter(events) case Some(p) => Advance(p, e) case None => None
  {
    assert (events + [e])[..|events|] == events;
  }

  lemma {:induction false} ProjectionOfAppend(a: seq<Line>, b: seq<Line>, sid: string)
    ensures Projection(a + b, sid) == Projection(a, sid) + Projection(b, sid)
    decreases |b|
  {
    if b == [] {
      assert a + b == a;
    } else {
      assert (a + b)[..|a + b| - 1] == a + b[..|b| - 1];
      ProjectionOfAppend(a, b[..|b| - 1], sid);
    }
  }

  lemma {:induction false} ProjectionIsEmpty(lines: seq<Line>, sid: string)
    ensures Projection(lines, sid) == [] <==> !Appears(lines, sid)
    decreases |lines|
  {
    if lines != [] {
      var init := lines[..|lines| - 1];
      ProjectionIsEmpty(init, sid);
      assert forall i :: 0 <= i < |init| ==> init[i] == lines[i];
    }
  }

  /** A process that has gone wrong by line `k` condemns the whole stream. */
  lemma FailedPrefixRejects(lines: seq<Line>, k: nat, sid: string)
    requires k < |lines| && lines[k].Traced? && lines[k].sid == sid
    requires PhaseAfter(Projection(lines[..k + 1], sid)).None?
    ensures !Accepted(lines)
  {
    assert lines == lines[..k + 1] + lines[k + 1..];
    ProjectionOfAppend(lines[..k + 1], lines[k + 1..], sid);
    var all, early := Projection(lines, sid), Projection(lines[..k + 1], sid);
    assert all[..|early|] == early;
    FailedStaysFailed(all, |early|);
    forall code ensures !IsLifecycle(all, code) { PhaseIsDone(all, code); }
    assert Appears(lines, sid) && !Completes(lines, sid);
  }

  // ---- The reader ------------------------------------------------------------------------

  ghost function PhaseOf(processes: map<string, ProcessTrace>, sid: string): Phase {
    if sid !in processes then Unseen
    else if processes[sid].exitCode.None? then Running
    else if processes[sid].atExitCode.None? then Exited(processes[sid].exitCode.value)
    else Done(processes[sid].exitCode.value)
  }

  ghost predicate Tracks(processes: map<string, ProcessTrace>, lines: seq<Line>) {
    && (forall sid :: PhaseAfter(Projection(lines, sid)) == Some(PhaseOf(processes, sid)))
    && (forall sid :: sid in processes && processes[sid].atExitCode.Some? ==>
          processes[sid].exitCode == processes[sid].atExitCode)
  }

  lemma TracksStep(
      processes: map<string, ProcessTrace>, processes': map<string, ProcessTrace>, lines: seq<Line>, k: nat)
    requires k < |lines| && lines[k].Traced? && Tracks(processes, lines[..k])
    requires forall sid :: sid != lines[k].sid ==> PhaseOf(processes', sid) == PhaseOf(processes, sid)
    requires Advance(PhaseOf(processes, lines[k].sid), lines[k].event) == Some(PhaseOf(processes', lines[k].sid))
    requires forall sid :: sid in processes' && processes'[sid].atExitCode.Some? ==>
      processes'[sid].exitCode == processes'[sid].atExitCode
    ensures Tracks(processes', lines[..k + 1])
  {
    forall sid ensures PhaseAfter(Projection(lines[..k + 1], sid)) == Some(PhaseOf(processes', sid)) {
      ProjectionStep(lines, k, sid);
      assert PhaseAfter(Projection(lines[..k], sid)) == Some(PhaseOf(processes, sid));
      if sid == lines[k].sid {
        PhaseStep(Projection(lines[..k], sid), lines[k].event);
      } else {
        assert Projection(lines[..k + 1], sid) == Projection(lines[..k], sid);
      }
    }
  }

  lemma StuckRejects(processes: map<string, ProcessTrace>, lines: seq<Line>, k: nat)
    requires k < |lines| && lines[k].Traced? && Tracks(processes, lines[..k])
    requires Advance(PhaseOf(processes, lines[k].sid), lines[k].event).None?
    ensures !Accepted(lines) && PhaseAfter(Projection(lines[..k + 1], lines[k].sid)).None?
  {
    var sid := lines[k].sid;
    ProjectionStep(lines, k, sid);
    PhaseStep(Projection(lines[..k], sid), lines[k].event);
    assert PhaseAfter(Projection(lines[..k], sid)) == Some(PhaseOf(processes, sid));
    FailedPrefixRejects(lines, k, sid);
  }

  /** Add one data event to the counters, or refuse it. */
  method AbsorbData(counters: Counters, key: Option<string>, value: DataValue) returns (after: Option<Counters>)
    ensures after.Some? <==> WellFormedEvent(Data(key, value))
    ensures after.Some? ==> after.value == Counted(counters, Data(key, value))
  {
    if key.None? || key.value == "" || value.MissingValue? {
      return None;
    }
    if IsCounterKey(key.value) && !value.Number? {
      return None;
    }
    if !value.Number? {
      return Some(counters);
    }
    match KindOf(key.value)
    case Some(ReceivedBytes) => after := Some(counters.(receivedBytes := SaturatingAdd(counters.receivedBytes, value.n)));
    case Some(SentBytes) => after := Some(counters.(sentBytes := SaturatingAdd(counters.sentBytes, value.n)));
    case Some(Refs) => after := Some(counters.(refs := SaturatingAdd(counters.refs, value.n)));
    case Some(Objects) => after := Some(counters.(objects := SaturatingAdd(counters.objects, value.n)));
    case _ => after := Some(counters);
  }

  /** Saturating addition line by line gives the capped sum of the stream. */
  lemma TotalsStep(lines: seq<Line>, k: nat)
    requires k < |lines| && lines[k].Traced?
    ensures Totals(lines[..k + 1]) == Counted(Totals(lines[..k]), lines[k].event)
  {
    assert lines[..k + 1][..k] == lines[..k];
  }

  /** One decoded event against the process table. */
  method AcceptEvent(processes: map<string, ProcessTrace>, counters: Counters, line: Line, number: nat)
    returns (r: Result<(map<string, ProcessTrace>, Counters), TraceError>)
    requires line.Traced?
    requires forall sid :: sid in processes && processes[sid].atExitCode.Some? ==>
      processes[sid].exitCode == processes[sid].atExitCode
    ensures r.Ok? <==> WellFormedEvent(line.event) && Advance(PhaseOf(processes, line.sid), line.event).Some?
    ensures r.Ok? ==>
      && r.value.1 == Counted(counters, line.event)
      && (forall sid :: sid != line.sid ==> PhaseOf(r.value.0, sid) == PhaseOf(processes, sid))
      && Advance(PhaseOf(processes, line.sid), line.event) == Some(PhaseOf(r.value.0, line.sid))
      && (forall sid :: sid in r.value.0 && r.value.0[sid].atExitCode.Some? ==>
            r.value.0[sid].exitCode == r.value.0[sid].atExitCode)
    ensures r.Err? ==> r.error == InvalidEvent(number) || r.error.MismatchedCompletion?
  {
    var sid, event := line.sid, line.event;
    if sid in processes && processes[sid].exitCode.Some? && processes[sid].atExitCode.None? && !event.AtExit? {
      return Err(InvalidEvent(number));
    }
    if event.Version? {
      if sid in processes {
        return Err(InvalidEvent(number));
      }
      return Ok((processes[sid := ProcessTrace(None, None)], counters.(processes := SaturatingAdd(counters.processes, 1))));
    }
    if sid !in processes || processes[sid].atExitCode.Some? {
      return Err(InvalidEvent(number));
    }
    var process := processes[sid];
    match event {
      case Data(key, value) =>
        var absorbed := AbsorbData(counters, key, value);
        if absorbed.None? {
          return Err(InvalidEvent(number));
        }
        return Ok((processes, absorbed.value));
      case Exit(code) =>
        if code.None? {
          return Err(InvalidEvent(number));
        }
        return Ok((processes[sid := process.(exitCode := code)], counters));
      case AtExit(code) =>
        if process.exitCode.None? || code.None? {
          return Err(InvalidEvent(number));
        }
        if process.exitCode.value != code.value {
          return Err(MismatchedCompletion(sid, process.exitCode.value, code.value));
        }
        return Ok((processes[sid := process.(atExitCode := code)], counters));
      case Other(_) =>
        return Ok((processes, counters));
    }
  }

  predicate Finished(p: ProcessTrace) {
    p.exitCode.Some? && p.atExitCode.Some?
  }

  /** Why a process is not complete at the end of the stream. */
  function Flaw(sid: string, p: ProcessTrace): Option<TraceError> {
    if p.exitCode.None? then Some(IncompleteProcess(sid, true))
    else if p.atExitCode.None? then Some(IncompleteProcess(sid, false))
    else if p.exitCode != p.atExitCode then Some(MismatchedCompletion(sid, p.exitCode.value, p.atExitCode.value))
    else None
  }

  /** A process is complete exactly with two equal codes; otherwise the flaw says what is missing or which
      codes differ. */
  lemma FlawMeans(sid: string, p: ProcessTrace)
    ensures Flaw(sid, p) == None <==> p.exitCode.Some? && p.atExitCode == p.exitCode
    ensures p.exitCode == None ==> Flaw(sid, p) == Some(IncompleteProcess(sid, true))
    ensures p.exitCode != None && p.atExitCode == None ==> Flaw(sid, p) == Some(IncompleteProcess(sid, false))
    ensures p.exitCode.Some? && p.atExitCode.Some? && p.exitCode.value != p.atExitCode.value ==>
      Flaw(sid, p) == Some(MismatchedCompletion(sid, p.exitCode.value, p.atExitCode.value))
  {
  }

  predicate IsFirstFlaw(processes: map<string, ProcessTrace>, error: TraceError) {
    && (error.IncompleteProcess? || error.MismatchedCompletion?)
    && error.sid in processes && Flaw(error.sid, processes[error.sid]) == Some(error)
    && forall sid :: sid in processes && sid != error.sid && Flaw(sid, processes[sid]).Some? ==>
         TextOrder.Before(error.sid, sid)
  }

  lemma ProcessMeans(processes: map<string, ProcessTrace>, lines: seq<Line>, sid: string)
    requires Tracks(processes, lines)
    ensures Appears(lines, sid) <==> sid in processes
    ensures sid in processes ==> (Completes(lines, sid) <==> Finished(processes[sid]))
    ensures sid in processes && Finished(processes[sid]) ==>
      (IsLifecycle(Projection(lines, sid), 0) <==> processes[sid].exitCode == Some(0))
  {
    var events := Projection(lines, sid);
    ProjectionIsEmpty(lines, sid);
    PhaseIsUnseen(events);
    assert PhaseAfter(events) == Some(PhaseOf(processes, sid));
    forall c ensures PhaseOf(processes, sid) == Done(c) <==> IsLifecycle(events, c) { PhaseIsDone(events, c); }
    if sid in processes && Finished(processes[sid]) {
      assert IsLifecycle(events, processes[sid].exitCode.value);
    }
  }

  lemma ProcessesMean(processes: map<string, ProcessTrace>, lines: seq<Line>)
    requires Tracks(processes, lines)
    ensures (forall sid :: sid in processes ==> Finished(processes[sid]))
      <==> (forall sid :: Appears(lines, sid) ==> Completes(lines, sid))
    ensures (forall sid :: sid in processes ==> Finished(processes[sid])) ==>
      ((forall sid :: sid in processes ==> processes[sid].exitCode == Some(0)) <==> Succeeds(lines))
  {
    forall sid
      ensures Appears(lines, sid) <==> sid in processes
      ensures sid in processes ==> (Completes(lines, sid) <==> Finished(processes[sid]))
      ensures sid in processes && Finished(processes[sid]) ==>
        (IsLifecycle(Projection(lines, sid), 0) <==> processes[sid].exitCode == Some(0))
    {
      ProcessMeans(processes, lines, sid);
    }
  }

  /** Every process must have completed, and the first in order that has not is reported; the
      trace succeeded if all exit codes are zero. */
  method CheckCompletion(processes: map<string, ProcessTrace>) returns (r: Result<bool, TraceError>)
    ensures r.Ok? <==> forall sid :: sid in processes ==> Flaw(sid, processes[sid]).None?
    ensures r.Ok? ==> (r.value <==> forall sid :: sid in processes ==> processes[sid].exitCode == Some(0))
    ensures r.Err? ==> IsFirstFlaw(processes, r.error)
  {
    var rest := processes.Keys;
    var successful := true;
    while rest != {}
      invariant rest <= processes.Keys
      invariant forall sid :: sid in processes && sid !in rest ==> Flaw(sid, processes[sid]).None?
      invariant successful <==> forall sid :: sid in processes && sid !in rest ==> processes[sid].exitCode == Some(0)
      decreases rest
    {
      var sid := TextOrder.LeastKey(rest);
      var process := processes[sid];
      if process.exitCode.None? {
        return Err(IncompleteProcess(sid, true));
      }
      if process.atExitCode.None? {
        return Err(IncompleteProcess(sid, false));
      }
      if process.exitCode != process.atExitCode {
        return Err(MismatchedCompletion(sid, process.exitCode.value, process.atExitCode.value));
      }
      successful := successful && process.exitCode.value == 0;
      rest := rest - {sid};
    }
    r := Ok(successful);
  }

  /** Nothing is wrong with the stream so far. */
  ghost predicate Viable(lines: seq<Line>) {
    WellFormed(lines) && forall sid :: PhaseAfter(Projection(lines, sid)).Some?
  }

  /** The error names the first line after which the stream can no longer be accepted. */
  ghost predicate Pinpoints(error: TraceError, lines: seq<Line>) {
    (error.InvalidEvent? || error.MalformedJson?) ==>
      0 < error.line <= |lines| && Viable(lines[..error.line - 1]) && !Viable(lines[..error.line])
  }

  ghost predicate IsGoodLine(processes: map<string, ProcessTrace>, line: Line) {
    line.Traced? && WellFormedEvent(line.event) && Advance(PhaseOf(processes, line.sid), line.event).Some?
  }

  lemma BadLineRejects(processes: map<string, ProcessTrace>, lines: seq<Line>, k: nat)
    requires k < |lines| && WellFormed(lines[..k]) && Tracks(processes, lines[..k]) && !IsGoodLine(processes, lines[k])
    ensures !Accepted(lines) && Viable(lines[..k]) && !Viable(lines[..k + 1])
  {
    assert lines[..k + 1][k] == lines[k];
    if lines[k].Traced? && WellFormedEvent(lines[k].event) { StuckRejects(processes, lines, k); }
  }

  lemma GoodLineExtends(lines: seq<Line>, k: nat)
    requires k < |lines| && WellFormed(lines[..k]) && lines[k].Traced? && WellFormedEvent(lines[k].event)
    ensures WellFormed(lines[..k + 1])
  {
  }

  /** The pass over the lines: a process table that tracks every process and the totals so far. */
  method ReadLines(lines: seq<Line>) returns (r: Result<(map<string, ProcessTrace>, Counters), TraceError>)
    ensures r.Ok? ==> WellFormed(lines) && Tracks(r.value.0, lines) && r.value.1 == Totals(lines)
    ensures r.Err? ==> !Accepted(lines) && Pinpoints(r.error, lines) && !r.error.EmptyTrace? && !r.error.IncompleteProcess?
  {
    var counters := Counters(0, 0, 0, 0, 0);
    var processes: map<string, ProcessTrace> := map[];
    for k := 0 to |lines|
      invariant WellFormed(lines[..k]) && Tracks(processes, lines[..k]) && counters == Totals(lines[..k])
    {
      var line := lines[k];
      if !IsGoodLine(processes, line) { BadLineRejects(processes, lines, k); }
      if line.Blank? {
        return Err(InvalidEvent(k + 1));
      }
      if line.Undecodable? {
        return Err(if line.json then InvalidEvent(k + 1) else MalformedJson(k + 1));
      }
      var step := AcceptEvent(processes, counters, line, k + 1);
      if step.Err? {
        return Err(step.error);
      }
      GoodLineExtends(lines, k);
      TotalsStep(lines, k);
      TracksStep(processes, step.value.0, lines, k);
      processes, counters := step.value.0, step.value.1;
    }
    assert lines[..|lines|] == lines;
    r := Ok((processes, counters));
  }

  /** Accepts exactly the streams in which every process runs its whole life, with capped totals
      and the conjunction of the processes' success. */
  method ParseEvents(lines: seq<Line>) returns (r: Result<GitTrace, TraceError>)
    ensures r.Ok? <==> Accepted(lines)
    ensures r.Ok? ==> r.value.counters == Totals(lines) && (r.value.successful <==> Succeeds(lines))
    ensures r == Err(EmptyTrace) <==> forall i :: 0 <= i < |lines| ==> lines[i].Blank?
    ensures r.Err? ==> Pinpoints(r.error, lines)
    ensures r.Err? && r.error.IncompleteProcess? ==>
      Viable(lines) && Appears(lines, r.error.sid) && !Completes(lines, r.error.sid)
  {
    if forall i :: 0 <= i < |lines| ==> lines[i].Blank? {
      assert lines != [] ==> lines[0].Blank?;
      return Err(EmptyTrace);
    }
    var read := ReadLines(lines);
    if read.Err? {
      return Err(read.error);
    }
    var processes := read.value.0;
    ProcessesMean(processes, lines);
    var outcome := CheckCompletion(processes);
    if outcome.Err? {
      ProcessMeans(processes, lines, outcome.error.sid);
      return Err(outcome.error);
    }
    r := Ok(GitTrace(read.value.1, outcome.value));
  }
}
