/** One atomic ledger call as a value, and runs of calls from any process in any order. */
module LedgerRuns {
  import opened Common
  import opened LedgerTypes
  import opened LedgerSpec
  import opened LedgerLifecycle
  import opened LedgerReconcile

  datatype Op =
    | OpSetMaxJobs(n: nat)
    | OpSetMaxJobsIfUnset(n: nat)
    | OpBeginEpoch
    | OpClaimRecovery(pid: nat, alive: set<nat>, minted: Token)
    | OpReleaseClaim(token: Token, pid: nat)
    | OpObserve(holder: Holder, lane: Lane, scope: string, firstSeen: nat, observed: nat)
    | OpPark(holder: Holder, now: nat)
    | OpCancel(holder: Holder, now: nat)
    | OpAcquire(holder: Holder, lane: Lane, state: PermitState, generation: nat, worker: Option<nat>, minted: Token, now: nat)
    | OpAcquireStaged(holder: Holder, state: PermitState, generation: nat, worker: Option<nat>, token: Token, now: nat)
    | OpAdopt(holder: Holder, lane: Lane, state: PermitState, generation: nat, pid: nat, alive: set<nat>, minted: Token, now: nat)
    | OpRotate(rotation: Rotation, pid: nat, now: nat)
    | OpTransition(holder: Holder, state: PermitState, generation: nat, token: Token, pid: nat, now: nat)
    | OpClaimCleanup(holder: Holder, lane: Lane, token: Token, pid: nat, now: nat)
    | OpRelease(holder: Holder, to: ReleaseTarget, token: Token, now: nat)
    | OpReleaseNative(holder: Holder, token: Token, closed: ClosedTarget, now: nat)
    | OpReleaseScaleSet(holder: Holder, token: Token, demand: DemandState, now: nat)
    | OpRetainUncertain(holder: Holder, generation: nat, token: Token, now: nat)
    | OpRetainRecordedFailure(holder: Holder, generation: nat, token: Token, now: nat)
    | OpRetainAfterCleanup(holder: Holder, token: Token, pid: nat, now: nat)
    | OpReconcile(evidence: seq<Evidence>, scan: seq<Holder>, now: nat)

  /** The database after one call. */
  ghost function Apply(s: Ledger, op: Op): Ledger {
    match op
    case OpSetMaxJobs(n) => SetMaxJobs(s, n).next
    case OpSetMaxJobsIfUnset(n) => SetMaxJobsIfUnset(s, n).next
    case OpBeginEpoch => BeginEpoch(s).next
    case OpClaimRecovery(pid, alive, minted) => ClaimRecovery(s, pid, alive, minted).next
    case OpReleaseClaim(token, pid) => ReleaseClaim(s, token, pid).next
    case OpObserve(h, lane, scope, firstSeen, observed) => ObserveDemand(s, h, lane, scope, firstSeen, observed).next
    case OpPark(h, now) => ParkDemand(s, h, now).next
    case OpCancel(h, now) => CancelDemand(s, h, now).next
    case OpAcquire(h, lane, state, g, worker, minted, now) => Acquire(s, h, lane, state, g, worker, None, minted, now).next
    case OpAcquireStaged(h, state, g, worker, token, now) => AcquireStaged(s, h, state, g, worker, token, now).next
    case OpAdopt(h, lane, state, g, pid, alive, minted, now) =>
      AdoptForRedelivery(s, h, lane, state, g, pid, alive, minted, now).next
    case OpRotate(r, pid, now) => RotateForRecovery(s, r, pid, now).next
    case OpTransition(h, state, g, token, pid, now) => TransitionOwned(s, h, state, g, token, pid, now).next
    case OpClaimCleanup(h, lane, token, pid, now) => ClaimTerminalCleanup(s, h, lane, token, pid, now).next
    case OpRelease(h, to, token, now) => ReleaseOwned(s, h, to, token, now).next
    case OpReleaseNative(h, token, closed, now) => ReleaseNative(s, h, token, closed, now).next
    case OpReleaseScaleSet(h, token, demand, now) => ReleaseScaleSet(s, h, token, demand, now).next
    case OpRetainUncertain(h, g, token, now) => RetainUncertain(s, h, g, token, now).next
    case OpRetainRecordedFailure(h, g, token, now) => RetainRecordedFailure(s, h, g, token, now).next
    case OpRetainAfterCleanup(h, token, pid, now) => RetainAfterCleanup(s, h, token, pid, now).next
    case OpReconcile(evidence, scan, now) => Reconcile(s, evidence, scan, now).next
  }

  /** The holder a call names, if it names one. */
  function Target(op: Op): Option<Holder> {
    match op
    case OpSetMaxJobs(_) => None
    case OpSetMaxJobsIfUnset(_) => None
    case OpBeginEpoch => None
    case OpClaimRecovery(_, _, _) => None
    case OpReleaseClaim(_, _) => None
    case OpReconcile(_, _, _) => None
    case OpRotate(r, _, _) => Some(r.holder)
    case _ => Some(op.holder)
  }

  lemma StagedAcquireTouches(s: Ledger, h: Holder, state: PermitState, g: nat, worker: Option<nat>, token: Token, now: nat)
    requires Inv(s)
    ensures Touches(s, AcquireStaged(s, h, state, g, worker, token, now).next, h)
  {
    AcquireTouches(s, h, ScaleSet, state, g, worker, Some(token), "", now);
    assert CoherentCell(CellOf(s, h));
  }

  lemma DemandCallTouches(s: Ledger, op: Op)
    requires Inv(s) && (op.OpObserve? || op.OpPark? || op.OpCancel? || op.OpAcquire? || op.OpAcquireStaged?)
    ensures Touches(s, Apply(s, op), op.holder)
  {
    match op
    case OpObserve(h, lane, scope, firstSeen, observed) => ObserveTouches(s, h, lane, scope, firstSeen, observed);
    case OpPark(h, now) => ParkTouches(s, h, now);
    case OpCancel(h, now) => CancelTouches(s, h, now);
    case OpAcquire(h, lane, state, g, worker, minted, now) => AcquireTouches(s, h, lane, state, g, worker, None, minted, now);
    case OpAcquireStaged(h, state, g, worker, token, now) => StagedAcquireTouches(s, h, state, g, worker, token, now);
  }

  lemma TargetedCallTouches(s: Ledger, op: Op)
    requires Inv(s) && Target(op).Some?
    ensures Touches(s, Apply(s, op), Target(op).value)
  {
    match op
    case OpAdopt(h, lane, state, g, pid, alive, minted, now) => AdoptTouches(s, h, lane, state, g, pid, alive, minted, now);
    case OpRotate(r, pid, now) => RotateTouches(s, r, pid, now);
    case OpTransition(h, state, g, token, pid, now) => TransitionTouches(s, h, state, g, token, pid, now);
    case OpClaimCleanup(h, lane, token, pid, now) => ClaimCleanupTouches(s, h, lane, token, pid, now);
    case OpRelease(h, to, token, now) => ReleaseTouches(s, h, to, token, now);
    case OpReleaseNative(h, token, closed, now) => ReleaseNativeTouches(s, h, token, closed, now);
    case OpReleaseScaleSet(h, token, demand, now) => ReleaseScaleSetTouches(s, h, token, demand, now);
    case OpRetainUncertain(h, g, token, now) => RetainUncertainTouches(s, h, g, token, now);
    case OpRetainRecordedFailure(h, g, token, now) => RetainRecordedFailureTouches(s, h, g, token, now);
    case OpRetainAfterCleanup(h, token, pid, now) => RetainAfterCleanupTouches(s, h, token, pid, now);
    case _ => DemandCallTouches(s, op);
  }

  lemma ReconcileRespects(s: Ledger, evidence: seq<Evidence>, scan: seq<Holder>, now: nat)
    requires Inv(s)
    ensures Respects(s, Reconcile(s, evidence, scan, now).next)
  {
    ReconcileOnCoherent(s, evidence, scan, now);
    var s' := Reconcile(s, evidence, scan, now).next;
    forall h ensures Moves(CellOf(s, h), CellOf(s', h)) && CoherentCell(CellOf(s', h)) {
      assert CoherentCell(CellOf(s, h));
    }
  }

  /** Every call, from any process and with any arguments, keeps the invariant and moves every
      holder along the life cycle. */
  lemma StepRespects(s: Ledger, op: Op)
    requires Inv(s)
    ensures Respects(s, Apply(s, op))
  {
    if Target(op).Some? {
      TargetedCallTouches(s, op);
      TouchRespects(s, Apply(s, op), Target(op).value);
    } else if op.OpReconcile? {
      ReconcileRespects(s, op.evidence, op.scan, op.now);
    } else {
      StutterRespects(s, Apply(s, op));
    }
  }

  /** A call on a ledger that satisfies the invariant keeps it and moves every holder along the
      life cycle; nothing is promised for a ledger that was broken before. */
  ghost predicate Preserves(s: Ledger, s': Ledger) {
    Inv(s) ==> Respects(s, s')
  }

  lemma StepPreserves(s: Ledger, op: Op)
    ensures Preserves(s, Apply(s, op))
  {
    if Inv(s) { StepRespects(s, op); }
  }

  lemma AcquirePreserves(
      s: Ledger, h: Holder, lane: Lane, state: PermitState, g: nat, worker: Option<nat>, staged: Option<Token>, minted: Token,
      now: nat)
    ensures Preserves(s, Acquire(s, h, lane, state, g, worker, staged, minted, now).next)
  {
    if Inv(s) {
      AcquireTouches(s, h, lane, state, g, worker, staged, minted, now);
      TouchRespects(s, Acquire(s, h, lane, state, g, worker, staged, minted, now).next, h);
    }
  }

  lemma ReleasePreserves(s: Ledger, h: Holder, to: ReleaseTarget, token: Token, now: nat)
    ensures Preserves(s, ReleaseOwned(s, h, to, token, now).next)
  {
    StepPreserves(s, OpRelease(h, to, token, now));
  }

  lemma ReleaseScaleSetPreserves(s: Ledger, h: Holder, token: Token, demand: DemandState, now: nat)
    ensures Preserves(s, ReleaseScaleSet(s, h, token, demand, now).next)
  {
    StepPreserves(s, OpReleaseScaleSet(h, token, demand, now));
  }

  lemma RetainAfterCleanupPreserves(s: Ledger, h: Holder, token: Token, pid: nat, now: nat)
    ensures Preserves(s, RetainAfterCleanup(s, h, token, pid, now).next)
  {
    StepPreserves(s, OpRetainAfterCleanup(h, token, pid, now));
  }

  lemma ReconcilePreserves(s: Ledger, evidence: seq<Evidence>, scan: seq<Holder>, now: nat)
    ensures Preserves(s, Reconcile(s, evidence, scan, now).next)
  {
    if Inv(s) { ReconcileRespects(s, evidence, scan, now); }
  }

  // ---- Runs ------------------------------------------------------------------------------

  /** Calls from all processes, in the order the database serialised them. */
  ghost function Run(s: Ledger, ops: seq<Op>): Ledger
    decreases |ops|
  {
    if ops == [] then s else Run(Apply(s, ops[0]), ops[1..])
  }

  lemma {:induction false} RunAppends(s: Ledger, a: seq<Op>, b: seq<Op>)
    ensures Run(s, a + b) == Run(Run(s, a), b)
    decreases |a|
  {
    if a == [] {
      assert a + b == b;
    } else {
      assert (a + b)[1..] == a[1..] + b;
      RunAppends(Apply(s, a[0]), a[1..], b);
    }
  }

  lemma {:induction false} RunKeepsInv(s: Ledger, ops: seq<Op>)
    requires Inv(s)
    ensures Inv(Run(s, ops))
    decreases |ops|
  {
    if ops != [] {
      StepRespects(s, ops[0]);
      RunKeepsInv(Apply(s, ops[0]), ops[1..]);
    }
  }

  /** In every state reachable from an empty ledger a permit stands on granted or terminal demand
      of its own lane and granted demand has its permit. So eligible, waiting and cancelled demand
      never holds capacity, and the acquire path's repair of granted demand without a permit is
      never taken. */
  lemma ReachableIsCoherent(ops: seq<Op>, h: Holder)
    ensures var s := Run(EMPTY_LEDGER, ops);
      && Inv(s)
      && (h in s.permits ==>
            && h in s.demands && s.demands[h].lane == s.permits[h].lane
            && (s.demands[h].state.Granted? || s.demands[h].state.Terminal?))
      && (h in s.demands && h !in s.permits ==> !s.demands[h].state.Granted?)
  {
    RunKeepsInv(EMPTY_LEDGER, ops);
    assert CoherentCell(CellOf(Run(EMPTY_LEDGER, ops), h));
  }

  /** A queue ticket, once issued, is never changed or withdrawn. */
  lemma {:induction false} TicketsAreForever(s: Ledger, ops: seq<Op>, h: Holder)
    requires Inv(s) && h in s.demands
    ensures h in Run(s, ops).demands && SameTicket(s.demands[h], Run(s, ops).demands[h])
    decreases |ops|
  {
    if ops != [] {
      StepRespects(s, ops[0]);
      var s' := Apply(s, ops[0]);
      assert Moves(CellOf(s, h), CellOf(s', h));
      TicketsAreForever(s', ops[1..], h);
    }
  }

  /** Closed work stays closed. Without a permit its demand row never changes again and no later
      call grants that holder; with a permit, the only change of state left is from terminal to
      cancelled, and that call gives the permit up. */
  lemma {:induction false} ClosedStaysClosed(s: Ledger, ops: seq<Op>, h: Holder)
    requires Inv(s) && h in s.demands && s.demands[h].state.Closed()
    ensures h in Run(s, ops).demands && Run(s, ops).demands[h].state.Closed()
    ensures h !in s.permits ==> h !in Run(s, ops).permits && Run(s, ops).demands[h] == s.demands[h]
    ensures s.demands[h].state.Cancelled? ==> h !in s.permits
    ensures Run(s, ops).demands[h].state != s.demands[h].state ==>
      h in s.permits && h !in Run(s, ops).permits && Run(s, ops).demands[h].state.Cancelled?
    decreases |ops|
  {
    assert CoherentCell(CellOf(s, h));
    if ops != [] {
      StepRespects(s, ops[0]);
      var s' := Apply(s, ops[0]);
      assert Moves(CellOf(s, h), CellOf(s', h));
      ClosedStaysClosed(s', ops[1..], h);
    }
  }
}
