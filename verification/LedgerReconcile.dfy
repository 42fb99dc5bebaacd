/** Reconciliation in closed form: which evidence it accepts, and what an accepted one changes. */
module LedgerReconcile {
  import opened Common
  import opened LedgerTypes
  import opened LedgerSpec
  import opened LedgerLifecycle

  ghost predicate DistinctHolders(evidence: seq<Evidence>) {
    forall i, j :: 0 <= i < j < |evidence| ==> evidence[i].holder != evidence[j].holder
  }

  ghost predicate Sound(s: Ledger, e: Evidence) {
    Malformed(e).None? && Contradiction(s, e).None?
  }

  /** Evidence that agrees with the recorded rows and names no holder twice. */
  ghost predicate Accepted(s: Ledger, evidence: seq<Evidence>) {
    DistinctHolders(evidence) && forall i :: 0 <= i < |evidence| ==> Sound(s, evidence[i])
  }

  ghost function HoldersOf(evidence: seq<Evidence>): set<Holder> {
    set i | 0 <= i < |evidence| :: evidence[i].holder
  }

  /** A recorded row that no evidence names and no cleanup claim protects. */
  ghost predicate Unattested(s: Ledger, named: set<Holder>, h: Holder) {
    h in s.permits && h !in named && !s.permits[h].state.Cleaning?
  }

  function UncertainRow(p: Permit, generation: nat, now: nat): Permit {
    p.(state := Uncertain, updated := now, generation := generation)
  }

  /** Unattested rows become uncertain; every other row is kept as it is. */
  ghost function Settled(s: Ledger, named: set<Holder>, scan: seq<Holder>, now: nat): map<Holder, Permit> {
    map h | h in s.permits ::
      if h in scan && Unattested(s, named, h)
      then UncertainRow(s.permits[h], s.generation, now)
      else s.permits[h]
  }

  lemma AcceptedSplits(s: Ledger, evidence: seq<Evidence>)
    requires evidence != []
    ensures Accepted(s, evidence)
      <==> Sound(s, evidence[0]) && evidence[0].holder !in HoldersOf(evidence[1..]) && Accepted(s, evidence[1..])
  {
    var rest := evidence[1..];
    if Sound(s, evidence[0]) && evidence[0].holder !in HoldersOf(rest) && Accepted(s, rest) {
      forall i, j | 0 <= i < j < |evidence| ensures evidence[i].holder != evidence[j].holder {
        assert evidence[j] == rest[j - 1];
        if i > 0 { assert evidence[i] == rest[i - 1]; }
      }
      forall i | 0 <= i < |evidence| ensures Sound(s, evidence[i]) {
        if i > 0 { assert evidence[i] == rest[i - 1]; }
      }
    }
  }

  lemma TakeAllOnCoherent(p: Progress, evidence: seq<Evidence>, now: nat)
    requires Coherent(p.next)
    ensures TakeAll(p, evidence, now).Ok? <==> Accepted(p.next, evidence) && p.seen !! HoldersOf(evidence)
    ensures TakeAll(p, evidence, now).Ok? ==>
      TakeAll(p, evidence, now).value
        == Progress(p.seen + HoldersOf(evidence), p.next, p.confirmed + (HoldersOf(evidence) * p.next.permits.Keys), p.marked)
    decreases |evidence|
  {
    if evidence == [] {
      assert HoldersOf(evidence) == {};
    } else {
      var e, rest := evidence[0], evidence[1..];
      assert HoldersOf(evidence) == {e.holder} + HoldersOf(rest) by {
        assert forall i :: 0 <= i < |rest| ==> rest[i] == evidence[i + 1];
        assert forall i :: 0 < i < |evidence| ==> evidence[i] == rest[i - 1];
      }
      var taken := TakeEvidence(p, e, now);
      if taken.Ok? {
        if e.LiveEvidence? || e.RotationStage? {
          HeldDemandIsVouched(p.next, e.holder, now);
        }
        TakeAllOnCoherent(taken.value, rest, now);
        AcceptedSplits(p.next, evidence);
      }
    }
  }

  lemma MarkRowOnCoherent(p: Progress, h: Holder, now: nat)
    requires Coherent(p.next) && Unattested(p.next, p.seen, h)
    ensures var next := PutPermit(p.next, h, UncertainRow(p.next.permits[h], p.next.generation, now));
      && MarkRow(p, h, now) == Ok(p.(next := next, marked := p.marked + {h}))
      && Coherent(next)
      && forall k :: Unattested(next, p.seen, k) <==> Unattested(p.next, p.seen, k)
  {
    HeldDemandIsVouched(p.next, h, now);
    var next := PutPermit(p.next, h, UncertainRow(p.next.permits[h], p.next.generation, now));
    assert PutDemand(next, h, VouchedDemand(p.next, h, p.next.permits[h].lane, now)).demands == p.next.demands;
    forall k ensures CoherentCell(CellOf(next, k)) { assert CoherentCell(CellOf(p.next, k)); }
  }

  ghost function UnattestedIn(s: Ledger, named: set<Holder>, scan: seq<Holder>): set<Holder> {
    set h | h in scan && Unattested(s, named, h)
  }

  lemma SettledAfterRow(s: Ledger, named: set<Holder>, scan: seq<Holder>, now: nat)
    requires scan != [] && Unattested(s, named, scan[0])
    ensures Settled(PutPermit(s, scan[0], UncertainRow(s.permits[scan[0]], s.generation, now)), named, scan[1..], now)
      == Settled(s, named, scan, now)
  {
    assert scan == [scan[0]] + scan[1..];
  }

  lemma MarkAllOnCoherent(p: Progress, scan: seq<Holder>, now: nat)
    requires Coherent(p.next)
    ensures MarkAll(p, scan, now)
      == Ok(p.(next := p.next.(permits := Settled(p.next, p.seen, scan, now)),
               marked := p.marked + UnattestedIn(p.next, p.seen, scan)))
    decreases |scan|
  {
    if scan == [] {
      assert Settled(p.next, p.seen, scan, now) == p.next.permits;
      assert p.marked + UnattestedIn(p.next, p.seen, scan) == p.marked;
    } else {
      var h, rest := scan[0], scan[1..];
      assert scan == [h] + rest;
      if Unattested(p.next, p.seen, h) {
        MarkRowOnCoherent(p, h, now);
        var q := MarkRow(p, h, now).value;
        MarkAllOnCoherent(q, rest, now);
        assert UnattestedIn(p.next, p.seen, scan) == {h} + UnattestedIn(q.next, q.seen, rest);
        assert q.marked + UnattestedIn(q.next, q.seen, rest) == p.marked + UnattestedIn(p.next, p.seen, scan);
        SettledAfterRow(p.next, p.seen, scan, now);
      } else {
        MarkAllOnCoherent(p, rest, now);
        assert UnattestedIn(p.next, p.seen, scan) == UnattestedIn(p.next, p.seen, rest);
        assert Settled(p.next, p.seen, rest, now) == Settled(p.next, p.seen, scan, now);
      }
    }
  }

  /** All or nothing: evidence that disagrees with the ledger changes nothing; accepted
      evidence marks exactly the unattested rows and opens this epoch for advertising. */
  lemma ReconcileOnCoherent(s: Ledger, evidence: seq<Evidence>, scan: seq<Holder>, now: nat)
    requires Coherent(s)
    ensures Reconcile(s, evidence, scan, now).reply.Ok? <==> Accepted(s, evidence)
    ensures !Accepted(s, evidence) ==> Reconcile(s, evidence, scan, now).next == s
    ensures Accepted(s, evidence) ==>
      Reconcile(s, evidence, scan, now)
        == Step(s.(permits := Settled(s, HoldersOf(evidence), scan, now), reconciled := s.generation),
                Ok(ReconcileReport(UnattestedIn(s, HoldersOf(evidence), scan), HoldersOf(evidence) * s.permits.Keys)))
  {
    var start := Progress({}, s, {}, {});
    TakeAllOnCoherent(start, evidence, now);
    if Accepted(s, evidence) {
      assert {} + HoldersOf(evidence) == HoldersOf(evidence);
      assert {} + UnattestedIn(s, HoldersOf(evidence), scan) == UnattestedIn(s, HoldersOf(evidence), scan);
      assert {} + HoldersOf(evidence) * s.permits.Keys == HoldersOf(evidence) * s.permits.Keys;
      MarkAllOnCoherent(TakeAll(start, evidence, now).value, scan, now);
    }
  }

  /** Every recorded holder is confirmed, marked uncertain, or an unobserved cleanup claim. */
  lemma ReconcilePartitionsHolders(s: Ledger, evidence: seq<Evidence>, scan: seq<Holder>, now: nat)
    requires Coherent(s) && Accepted(s, evidence)
    requires forall h :: h in s.permits ==> h in scan
    ensures Reconcile(s, evidence, scan, now).reply.Ok?
    ensures var step := Reconcile(s, evidence, scan, now); var report := step.reply.value;
      var claimed := set h | h in s.permits && h !in HoldersOf(evidence) && s.permits[h].state.Cleaning?;
      && s.permits.Keys == report.confirmed + report.markedUncertain + claimed
      && report.confirmed !! report.markedUncertain !! claimed
      && step.next.permits.Keys == s.permits.Keys && step.next.demands == s.demands
      && (forall h :: h in report.confirmed + claimed ==> step.next.permits[h] == s.permits[h])
      && (forall h :: h in report.markedUncertain ==>
            step.next.permits[h] == UncertainRow(s.permits[h], s.generation, now))
  {
    ReconcileOnCoherent(s, evidence, scan, now);
  }
}
