/** What the Trace2 reader's answer does not depend on, and how it composes. */
module Trace2Streams {
  import opened Common
  import opened Trace2

  lemma {:induction false} SumOfAppend(a: seq<Line>, b: seq<Line>, kind: Kind)
    ensures Sum(a + b, kind) == Sum(a, kind) + Sum(b, kind)
    decreases |b|
  {
    if b == [] {
      assert a + b == a;
    } else {
      assert (a + b)[..|a + b| - 1] == a + b[..|b| - 1];
      SumOfAppend(a, b[..|b| - 1], kind);
    }
  }

  /** Same processes, same events in the same order per process; only the interleaving differs. */
  ghost predicate SameProcesses(a: seq<Line>, b: seq<Line>) {
    && (forall i :: 0 <= i < |a| ==> a[i].Traced?) && (forall i :: 0 <= i < |b| ==> b[i].Traced?)
    && forall sid :: Projection(a, sid) == Projection(b, sid)
  }

  lemma ForeignLineAddsNothing(lines: seq<Line>, j: nat, sid: string)
    requires j < |lines| && EventFor(lines[|lines| - 1], sid) == []
    ensures Projection(lines[j..], sid) == Projection(lines[..|lines| - 1][j..], sid)
  {
    var n := |lines| - 1;
    assert lines[j..][..n - j] == lines[..n][j..] && lines[j..][n - j] == lines[n];
  }

  /** Where the last event of `sid` stands in the stream. */
  lemma {:induction false} LastEventOf(lines: seq<Line>, sid: string) returns (j: nat)
    requires Projection(lines, sid) != []
    ensures j < |lines| && lines[j].Traced? && lines[j].sid == sid
    ensures Projection(lines[..j], sid) + [lines[j].event] == Projection(lines, sid)
    ensures Projection(lines[j + 1..], sid) == []
    decreases |lines|
  {
    var n := |lines| - 1;
    if lines[n].Traced? && lines[n].sid == sid {
      j := n;
    } else {
      j := LastEventOf(lines[..n], sid);
      assert lines[..n][..j] == lines[..j];
      ForeignLineAddsNothing(lines, j + 1, sid);
    }
  }

  /** Dropping a process's last event from the stream drops it from that process alone. */
  lemma DropEvent(lines: seq<Line>, j: nat, other: string)
    requires j < |lines| && lines[j].Traced? && Projection(lines[j + 1..], lines[j].sid) == []
    ensures var dropped := lines[..j] + lines[j + 1..];
      Projection(lines, other) == Projection(dropped, other) + EventFor(lines[j], other)
  {
    assert lines == lines[..j] + [lines[j]] + lines[j + 1..];
    ProjectionOfAppend(lines[..j] + [lines[j]], lines[j + 1..], other);
    ProjectionOfAppend(lines[..j], [lines[j]], other);
    ProjectionOfAppend(lines[..j], lines[j + 1..], other);
    assert [lines[j]][..0] == [];
    assert Projection([lines[j]], other) == EventFor(lines[j], other);
  }

  lemma SumWithoutEvent(lines: seq<Line>, j: nat, kind: Kind)
    requires j < |lines| && lines[j].Traced?
    ensures Sum(lines, kind) == Sum(lines[..j] + lines[j + 1..], kind) + Contribution(lines[j].event, kind)
  {
    assert lines == lines[..j] + [lines[j]] + lines[j + 1..];
    SumOfAppend(lines[..j] + [lines[j]], lines[j + 1..], kind);
    SumOfAppend(lines[..j], [lines[j]], kind);
    SumOfAppend(lines[..j], lines[j + 1..], kind);
    assert [lines[j]][..0] == [];
  }

  lemma SuffixCancels(p: seq<Event>, q: seq<Event>, tail: seq<Event>)
    requires p + tail == q + tail
    ensures p == q
  {
    assert |p| == |q|;
    assert p == (p + tail)[..|p|] && q == (q + tail)[..|q|];
  }

  /** The last event of one interleaving can be taken out of the other as well. */
  lemma DropFromBoth(a: seq<Line>, b: seq<Line>) returns (j: nat)
    requires SameProcesses(a, b) && a != []
    ensures j < |b| && b[j] == a[|a| - 1]
    ensures SameProcesses(a[..|a| - 1], b[..j] + b[j + 1..])
  {
    var n := |a| - 1;
    var sid := a[n].sid;
    var events := Projection(a, sid);
    assert events == Projection(b, sid) && events[|events| - 1] == a[n].event;
    j := LastEventOf(b, sid);
    assert events[|events| - 1] == b[j].event;
    var b' := b[..j] + b[j + 1..];
    forall other ensures Projection(a[..n], other) == Projection(b', other) {
      DropEvent(b, j, other);
      assert Projection(a, other) == Projection(a[..n], other) + EventFor(a[n], other);
      assert Projection(a, other) == Projection(b, other);
      SuffixCancels(Projection(a[..n], other), Projection(b', other), EventFor(a[n], other));
    }
  }

  lemma {:induction false} SumIgnoresInterleaving(a: seq<Line>, b: seq<Line>, kind: Kind)
    requires SameProcesses(a, b)
    ensures Sum(a, kind) == Sum(b, kind)
    decreases |a|
  {
    if a == [] {
      if b != [] {
        ProjectionIsEmpty(b, b[0].sid);
        assert false;
      }
    } else {
      var j := DropFromBoth(a, b);
      SumIgnoresInterleaving(a[..|a| - 1], b[..j] + b[j + 1..], kind);
      SumWithoutEvent(b, j, kind);
    }
  }

  lemma {:induction false} EventAppearsInProjection(lines: seq<Line>, i: nat)
    requires i < |lines| && lines[i].Traced?
    ensures lines[i].event in Projection(lines, lines[i].sid)
    decreases |lines|
  {
    if i < |lines| - 1 { EventAppearsInProjection(lines[..|lines| - 1], i); }
  }

  lemma {:induction false} ProjectedEventIsALine(lines: seq<Line>, sid: string, e: Event) returns (i: nat)
    requires e in Projection(lines, sid)
    ensures i < |lines| && lines[i] == Traced(sid, e)
    decreases |lines|
  {
    var n := |lines| - 1;
    if lines[n] == Traced(sid, e) {
      i := n;
    } else {
      i := ProjectedEventIsALine(lines[..n], sid, e);
    }
  }

  lemma WellFormedIgnoresInterleaving(a: seq<Line>, b: seq<Line>)
    requires SameProcesses(a, b) && WellFormed(a)
    ensures WellFormed(b)
  {
    forall i | 0 <= i < |b| ensures WellFormedEvent(b[i].event) {
      EventAppearsInProjection(b, i);
      assert Projection(a, b[i].sid) == Projection(b, b[i].sid);
      var j := ProjectedEventIsALine(a, b[i].sid, b[i].event);
    }
  }

  /** How the processes interleave does not matter: the streams are accepted alike, with the same
      totals and the same success. */
  lemma InterleavingIsIrrelevant(a: seq<Line>, b: seq<Line>)
    requires SameProcesses(a, b)
    ensures Accepted(a) <==> Accepted(b)
    ensures Totals(a) == Totals(b)
    ensures Succeeds(a) <==> Succeeds(b)
  {
    assert SameProcesses(b, a);
    forall sid ensures Appears(a, sid) <==> Appears(b, sid) {
      ProjectionIsEmpty(a, sid);
      ProjectionIsEmpty(b, sid);
      assert Projection(a, sid) == Projection(b, sid);
    }
    if WellFormed(a) { WellFormedIgnoresInterleaving(a, b); }
    if WellFormed(b) { WellFormedIgnoresInterleaving(b, a); }
    assert a != [] ==> Appears(a, a[0].sid);
    assert b != [] ==> Appears(b, b[0].sid);
    forall kind ensures Sum(a, kind) == Sum(b, kind) { SumIgnoresInterleaving(a, b, kind); }
  }

  lemma AppearsInAppend(a: seq<Line>, b: seq<Line>, sid: string)
    ensures Appears(a + b, sid) <==> Appears(a, sid) || Appears(b, sid)
  {
    if Appears(a, sid) {
      var i :| 0 <= i < |a| && a[i].Traced? && a[i].sid == sid;
      assert (a + b)[i] == a[i];
    }
    if Appears(b, sid) {
      var i :| 0 <= i < |b| && b[i].Traced? && b[i].sid == sid;
      assert (a + b)[|a| + i] == b[i];
    }
  }

  lemma ProcessOfAppend(a: seq<Line>, b: seq<Line>, sid: string)
    requires !(Appears(a, sid) && Appears(b, sid))
    ensures Appears(a, sid) ==> Projection(a + b, sid) == Projection(a, sid)
    ensures Appears(b, sid) ==> Projection(a + b, sid) == Projection(b, sid)
  {
    ProjectionOfAppend(a, b, sid);
    ProjectionIsEmpty(a, sid);
    ProjectionIsEmpty(b, sid);
  }

  lemma WellFormedAppend(a: seq<Line>, b: seq<Line>)
    ensures WellFormed(a + b) <==> WellFormed(a) && WellFormed(b)
  {
    assert forall i :: 0 <= i < |a| ==> (a + b)[i] == a[i];
    assert forall i :: 0 <= i < |b| ==> (a + b)[|a| + i] == b[i];
  }

  /** Reading two workers' streams as one is the same as reading them apart and merging. */
  lemma ConcatenationMerges(a: seq<Line>, b: seq<Line>)
    requires a != [] && b != [] && forall sid :: !(Appears(a, sid) && Appears(b, sid))
    ensures Accepted(a + b) <==> Accepted(a) && Accepted(b)
    ensures Totals(a + b) == Merge(Totals(a), Totals(b))
    ensures Succeeds(a + b) <==> Succeeds(a) && Succeeds(b)
  {
    forall sid
      ensures Appears(a + b, sid) <==> Appears(a, sid) || Appears(b, sid)
      ensures Appears(a, sid) ==> Projection(a + b, sid) == Projection(a, sid)
      ensures Appears(b, sid) ==> Projection(a + b, sid) == Projection(b, sid)
    {
      AppearsInAppend(a, b, sid);
      ProcessOfAppend(a, b, sid);
    }
    WellFormedAppend(a, b);
    forall kind ensures Sum(a + b, kind) == Sum(a, kind) + Sum(b, kind) { SumOfAppend(a, b, kind); }
  }


  // ---- Viable streams --------------------------------------------------------------------

  /** What a process in this phase still has to report. */
  function Remainder(phase: Phase): seq<Event> {
    match phase
    case Unseen => []
    case Running => [Exit(Some(0)), AtExit(Some(0))]
    case Exited(c) => [AtExit(Some(c))]
    case Done(_) => []
  }

  function AsLines(sid: string, events: seq<Event>): seq<Line> {
    seq(|events|, i requires 0 <= i < |events| => Traced(sid, events[i]))
  }

  lemma {:induction false} ProjectionOfLines(sid: string, events: seq<Event>, other: string)
    ensures Projection(AsLines(sid, events), other) == if other == sid then events else []
    decreases |events|
  {
    if events != [] {
      var n := |events| - 1;
      ProjectionOfLines(sid, events[..n], other);
      assert AsLines(sid, events)[..n] == AsLines(sid, events[..n]);
      assert events == events[..n] + [events[n]];
    }
  }

  lemma RemainderCompletes(events: seq<Event>)
    requires PhaseAfter(events).Some? && events != []
    ensures exists c :: PhaseAfter(events + Remainder(PhaseAfter(events).value)) == Some(Done(c))
  {
    match PhaseAfter(events).value
    case Unseen => PhaseIsUnseen(events);
    case Running =>
      PhaseStep(events, Exit(Some(0)));
      PhaseStep(events + [Exit(Some(0))], AtExit(Some(0)));
      assert events + [Exit(Some(0)), AtExit(Some(0))] == events + [Exit(Some(0))] + [AtExit(Some(0))];
    case Exited(c) =>
      PhaseStep(events, AtExit(Some(c)));
    case Done(c) =>
      assert events + [] == events;
  }

  ghost predicate IsDone(lines: seq<Line>, sid: string) {
    exists c :: PhaseAfter(Projection(lines, sid)) == Some(Done(c))
  }

  /** The processes that have not completed yet. */
  ghost function Unfinished(lines: seq<Line>): set<string> {
    set i | 0 <= i < |lines| && lines[i].Traced? && !IsDone(lines, lines[i].sid) :: lines[i].sid
  }

  lemma DoneIsCompleted(lines: seq<Line>, sid: string)
    ensures IsDone(lines, sid) <==> Completes(lines, sid)
  {
    forall c
      ensures PhaseAfter(Projection(lines, sid)) == Some(Done(c)) <==> IsLifecycle(Projection(lines, sid), c)
    {
      PhaseIsDone(Projection(lines, sid), c);
    }
  }

  lemma UnfinishedAfter(lines: seq<Line>, rest: seq<Line>, sid: string)
    requires forall i :: 0 <= i < |rest| ==> rest[i].Traced? && rest[i].sid == sid
    requires IsDone(lines + rest, sid)
    requires forall other :: other != sid ==> Projection(lines + rest, other) == Projection(lines, other)
    ensures Unfinished(lines + rest) == Unfinished(lines) - {sid}
  {
    var longer := lines + rest;
    forall other
      ensures other in Unfinished(longer) <==> other in Unfinished(lines) && other != sid
    {
      if other in Unfinished(longer) {
        var i :| 0 <= i < |longer| && longer[i].Traced? && !IsDone(longer, longer[i].sid) && longer[i].sid == other;
        assert i < |lines| && lines[i] == longer[i];
        assert IsDone(lines, other) ==> IsDone(longer, other);
      }
      if other in Unfinished(lines) && other != sid {
        var i :| 0 <= i < |lines| && lines[i].Traced? && !IsDone(lines, lines[i].sid) && lines[i].sid == other;
        assert longer[i] == lines[i];
        assert IsDone(longer, other) ==> IsDone(lines, other);
      }
    }
  }

  lemma ViableAfter(lines: seq<Line>, rest: seq<Line>, sid: string)
    requires Viable(lines) && WellFormed(rest) && IsDone(lines + rest, sid)
    requires forall other :: other != sid ==> Projection(lines + rest, other) == Projection(lines, other)
    ensures Viable(lines + rest)
  {
    WellFormedAppend(lines, rest);
    forall other
      ensures PhaseAfter(Projection(lines + rest, other)).Some?
    {
      assert other != sid ==> PhaseAfter(Projection(lines, other)).Some?;
    }
  }

  lemma ProjectionAfter(lines: seq<Line>, sid: string, events: seq<Event>, other: string)
    ensures Projection(lines + AsLines(sid, events), other)
      == if other == sid then Projection(lines, other) + events else Projection(lines, other)
  {
    ProjectionOfAppend(lines, AsLines(sid, events), other);
    ProjectionOfLines(sid, events, other);
  }

  function Ending(lines: seq<Line>, sid: string): seq<Line>
    requires PhaseAfter(Projection(lines, sid)).Some?
  {
    AsLines(sid, Remainder(PhaseAfter(Projection(lines, sid)).value))
  }

  lemma EndingFinishes(lines: seq<Line>, sid: string)
    requires PhaseAfter(Projection(lines, sid)).Some? && Projection(lines, sid) != []
    ensures IsDone(lines + Ending(lines, sid), sid)
  {
    var events := Projection(lines, sid);
    RemainderCompletes(events);
    ProjectionAfter(lines, sid, Remainder(PhaseAfter(events).value), sid);
  }

  lemma EndingIsWellFormed(lines: seq<Line>, sid: string)
    requires PhaseAfter(Projection(lines, sid)).Some?
    ensures WellFormed(Ending(lines, sid))
    ensures forall i :: 0 <= i < |Ending(lines, sid)| ==> Ending(lines, sid)[i].Traced? && Ending(lines, sid)[i].sid == sid
  {
  }

  /** Letting one process finish leaves the others as they are. */
  lemma FinishOne(lines: seq<Line>, sid: string) returns (longer: seq<Line>)
    requires Viable(lines) && sid in Unfinished(lines)
    ensures lines <= longer && Viable(longer) && Unfinished(longer) == Unfinished(lines) - {sid}
  {
    var rest := Ending(lines, sid);
    longer := lines + rest;
    ProjectionIsEmpty(lines, sid);
    EndingFinishes(lines, sid);
    EndingIsWellFormed(lines, sid);
    forall other | other != sid
      ensures Projection(longer, other) == Projection(lines, other)
    {
      ProjectionAfter(lines, sid, Remainder(PhaseAfter(Projection(lines, sid)).value), other);
    }
    ViableAfter(lines, rest, sid);
    UnfinishedAfter(lines, rest, sid);
  }

  lemma {:induction false} FinishAll(lines: seq<Line>) returns (longer: seq<Line>)
    requires Viable(lines) && lines != []
    ensures lines <= longer && Accepted(longer)
    decreases |Unfinished(lines)|
  {
    if Unfinished(lines) == {} {
      longer := lines;
      forall sid | Appears(lines, sid)
        ensures Completes(lines, sid)
      {
        var i :| 0 <= i < |lines| && lines[i].Traced? && lines[i].sid == sid;
        assert IsDone(lines, sid) by { assert lines[i].sid !in Unfinished(lines); }
        DoneIsCompleted(lines, sid);
      }
    } else {
      var sid :| sid in Unfinished(lines);
      var next := FinishOne(lines, sid);
      longer := FinishAll(next);
    }
  }

  lemma AcceptedIsViableThroughout(lines: seq<Line>, rest: seq<Line>)
    requires Accepted(lines + rest)
    ensures Viable(lines)
  {
    WellFormedAppend(lines, rest);
    forall sid
      ensures PhaseAfter(Projection(lines, sid)).Some?
    {
      ProjectionIsEmpty(lines, sid);
      if Appears(lines, sid) {
        AppearsInAppend(lines, rest, sid);
        DoneIsCompleted(lines + rest, sid);
        ProjectionOfAppend(lines, rest, sid);
        var all, early := Projection(lines + rest, sid), Projection(lines, sid);
        assert all[..|early|] == early;
        if PhaseAfter(early).None? { FailedStaysFailed(all, |early|); }
      }
    }
  }

  /** Nothing is wrong with a stream so far exactly when it can still be completed to one that is
      accepted: so the line an error names is the first after which no continuation helps. */
  lemma ViableIffCompletable(lines: seq<Line>)
    ensures Viable(lines) <==> exists rest :: Accepted(lines + rest)
  {
    if Viable(lines) {
      var start := lines;
      if lines == [] {
        start := AsLines("", [Version]);
        forall sid
          ensures PhaseAfter(Projection(start, sid)).Some?
        {
          ProjectionOfLines("", [Version], sid);
          assert [Version][..0] == [];
        }
      }
      var longer := FinishAll(start);
      assert longer == lines + longer[|lines|..];
    }
    if exists rest :: Accepted(lines + rest) {
      var rest :| Accepted(lines + rest);
      AcceptedIsViableThroughout(lines, rest);
    }
  }
}
