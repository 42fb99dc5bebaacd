/** The one host-wide budget: who may raise occupancy, what it equals, and when it is advertised. */
module LedgerCapacity {
  import opened Common
  import opened LedgerTypes
  import opened LedgerSpec
  import opened LedgerLifecycle
  import opened LedgerReconcile
  import opened LedgerRuns

  /** The call replied with a fresh permit; replaying a staged acquisition is not a grant. */
  ghost predicate IsGrant(s: Ledger, op: Op) {
    match op
    case OpAcquire(h, lane, state, g, worker, minted, now) =>
      h !in s.permits && Acquire(s, h, lane, state, g, worker, None, minted, now).reply == Ok(Acquired(minted))
    case OpAcquireStaged(h, state, g, worker, token, now) =>
      h !in s.permits && AcquireStaged(s, h, state, g, worker, token, now).reply == Ok(Acquired(token))
    case _ => false
  }

  /** The call replied that it gave a permit back. */
  ghost predicate IsRelease(s: Ledger, op: Op) {
    match op
    case OpRelease(h, to, token, now) => ReleaseOwned(s, h, to, token, now).reply
    case OpReleaseNative(h, token, closed, now) => ReleaseNative(s, h, token, closed, now).reply == Ok(Released)
    case OpReleaseScaleSet(h, token, demand, now) => ReleaseScaleSet(s, h, token, demand, now).reply == Ok(Released)
    case _ => false
  }

  /** Only a grant adds a holder, and only below N; only a release removes one; every other call
      keeps the set of holders exactly. */
  ghost predicate OccupancyAccounted(s: Ledger, op: Op) {
    var s' := Apply(s, op);
    && !(IsGrant(s, op) && IsRelease(s, op))
    && (IsGrant(s, op) || IsRelease(s, op) ==> Target(op).Some?)
    && (IsGrant(s, op) ==>
          && Target(op).value !in s.permits && s'.permits.Keys == s.permits.Keys + {Target(op).value}
          && s.maxJobs.Some? && |s.permits| < s.maxJobs.value)
    && (IsRelease(s, op) ==>
          Target(op).value in s.permits && s'.permits.Keys == s.permits.Keys - {Target(op).value})
    && (!IsGrant(s, op) && !IsRelease(s, op) ==> s'.permits.Keys == s.permits.Keys)
    && (!op.OpSetMaxJobs? && !op.OpSetMaxJobsIfUnset? ==> s'.maxJobs == s.maxJobs)
  }

  /** An acquisition adds its holder, below N, if it replied with a fresh permit. */
  ghost predicate AddsHolder(s: Ledger, step: Step<Result<AcquireOutcome, LedgerError>>, h: Holder, token: Token) {
    && step.next.maxJobs == s.maxJobs
    && (if h !in s.permits && step.reply == Ok(Acquired(token))
        then s.maxJobs.Some? && |s.permits| < s.maxJobs.value && step.next.permits.Keys == s.permits.Keys + {h}
        else step.next.permits == s.permits)
  }

  lemma AcquireAddsHolder(
      s: Ledger, h: Holder, lane: Lane, state: PermitState, g: nat, worker: Option<nat>, staged: Option<Token>, minted: Token,
      now: nat)
    ensures AddsHolder(s, Acquire(s, h, lane, state, g, worker, staged, minted, now), h,
                       if staged.Some? then staged.value else minted)
  {
    AcquireEffect(s, h, lane, state, g, worker, staged, minted, now);
  }

  lemma AcquireStagedAddsHolder(
      s: Ledger, h: Holder, state: PermitState, g: nat, worker: Option<nat>, token: Token, now: nat)
    ensures AddsHolder(s, AcquireStaged(s, h, state, g, worker, token, now), h, token)
  {
    if token != "" { AcquireAddsHolder(s, h, ScaleSet, state, g, worker, Some(token), "", now); }
  }

  lemma AcquireAccounted(s: Ledger, op: Op)
    requires op.OpAcquire?
    ensures OccupancyAccounted(s, op)
  {
    AcquireAddsHolder(s, op.holder, op.lane, op.state, op.generation, op.worker, None, op.minted, op.now);
  }

  lemma AcquireStagedAccounted(s: Ledger, op: Op)
    requires op.OpAcquireStaged?
    ensures OccupancyAccounted(s, op)
  {
    AcquireStagedAddsHolder(s, op.holder, op.state, op.generation, op.worker, op.token, op.now);
  }

  /** A release that says so gives back exactly its holder's permit; any other changes none. */
  ghost predicate RemovesHolder(s: Ledger, s': Ledger, h: Holder, released: bool) {
    && s'.maxJobs == s.maxJobs
    && (if released then h in s.permits && s'.permits == s.permits - {h} else s'.permits == s.permits)
  }

  lemma ReleaseRemoves(s: Ledger, h: Holder, to: DemandState, token: Token, now: nat)
    ensures var step := ReleaseOwned(s, h, to, token, now); RemovesHolder(s, step.next, h, step.reply)
  {
  }

  lemma ReleaseNativeRemoves(s: Ledger, h: Holder, token: Token, closed: ClosedTarget, now: nat)
    ensures var step := ReleaseNative(s, h, token, closed, now); RemovesHolder(s, step.next, h, step.reply == Ok(Released))
  {
  }

  lemma ReleaseScaleSetRemoves(s: Ledger, h: Holder, token: Token, demand: DemandState, now: nat)
    ensures var step := ReleaseScaleSet(s, h, token, demand, now); RemovesHolder(s, step.next, h, step.reply == Ok(Released))
  {
  }

  lemma ReleaseAccounted(s: Ledger, op: Op)
    requires op.OpRelease?
    ensures OccupancyAccounted(s, op)
  {
    ReleaseRemoves(s, op.holder, op.to, op.token, op.now);
  }

  lemma ReleaseNativeAccounted(s: Ledger, op: Op)
    requires op.OpReleaseNative?
    ensures OccupancyAccounted(s, op)
  {
    ReleaseNativeRemoves(s, op.holder, op.token, op.closed, op.now);
  }

  lemma ReleaseScaleSetAccounted(s: Ledger, op: Op)
    requires op.OpReleaseScaleSet?
    ensures OccupancyAccounted(s, op)
  {
    ReleaseScaleSetRemoves(s, op.holder, op.token, op.demand, op.now);
  }

  lemma HoldAccounted(s: Ledger, op: Op)
    requires op.OpTransition? || op.OpClaimCleanup?
    ensures OccupancyAccounted(s, op)
  {
  }

  lemma RetainAccounted(s: Ledger, op: Op)
    requires op.OpRetainUncertain? || op.OpRetainRecordedFailure? || op.OpRetainAfterCleanup?
    ensures OccupancyAccounted(s, op)
  {
  }

  lemma DemandAccounted(s: Ledger, op: Op)
    requires op.OpObserve? || op.OpPark? || op.OpCancel?
    ensures OccupancyAccounted(s, op)
  {
  }

  lemma TakeoverAccounted(s: Ledger, op: Op)
    requires op.OpAdopt? || op.OpRotate?
    ensures OccupancyAccounted(s, op)
  {
  }

  lemma HostAccounted(s: Ledger, op: Op)
    requires Target(op).None? && Coherent(s)
    ensures OccupancyAccounted(s, op)
  {
    if op.OpReconcile? { ReconcileOnCoherent(s, op.evidence, op.scan, op.now); }
  }

  lemma OccupancyStep(s: Ledger, op: Op)
    requires Inv(s)
    ensures OccupancyAccounted(s, op)
  {
    if op.OpAcquire? {
      AcquireAccounted(s, op);
    } else if op.OpAcquireStaged? {
      AcquireStagedAccounted(s, op);
    } else if op.OpRelease? {
      ReleaseAccounted(s, op);
    } else if op.OpReleaseNative? {
      ReleaseNativeAccounted(s, op);
    } else if op.OpReleaseScaleSet? {
      ReleaseScaleSetAccounted(s, op);
    } else if op.OpTransition? || op.OpClaimCleanup? {
      HoldAccounted(s, op);
    } else if op.OpRetainUncertain? || op.OpRetainRecordedFailure? || op.OpRetainAfterCleanup? {
      RetainAccounted(s, op);
    } else if op.OpObserve? || op.OpPark? || op.OpCancel? {
      DemandAccounted(s, op);
    } else if op.OpAdopt? || op.OpRotate? {
      TakeoverAccounted(s, op);
    } else {
      HostAccounted(s, op);
    }
  }

  ghost function Grants(s: Ledger, ops: seq<Op>): nat
    decreases |ops|
  {
    if ops == [] then 0 else (if IsGrant(s, ops[0]) then 1 else 0) + Grants(Apply(s, ops[0]), ops[1..])
  }

  ghost function Releases(s: Ledger, ops: seq<Op>): nat
    decreases |ops|
  {
    if ops == [] then 0 else (if IsRelease(s, ops[0]) then 1 else 0) + Releases(Apply(s, ops[0]), ops[1..])
  }

  /** Conservation: in every run occupancy is what it was, plus grants, minus releases. */
  lemma {:induction false} OccupancyIsConserved(s: Ledger, ops: seq<Op>)
    requires Inv(s)
    ensures |Run(s, ops).permits| == |s.permits| + Grants(s, ops) - Releases(s, ops)
    decreases |ops|
  {
    if ops != [] {
      var s' := Apply(s, ops[0]);
      OccupancyStep(s, ops[0]);
      assert |s'.permits.Keys| == |s'.permits| && |s.permits.Keys| == |s.permits|;
      StepRespects(s, ops[0]);
      OccupancyIsConserved(s', ops[1..]);
    }
  }

  ghost predicate WithinCapacity(s: Ledger) {
    if s.maxJobs.Some? then |s.permits| <= s.maxJobs.value else s.permits == map[]
  }

  /** No call of the run sets N below the value it has when the call is made. */
  ghost predicate NeverLowersCapacity(s: Ledger, ops: seq<Op>)
    decreases |ops|
  {
    ops == [] || (
      && (ops[0].OpSetMaxJobs? && s.maxJobs.Some? ==> s.maxJobs.value <= ops[0].n)
      && NeverLowersCapacity(Apply(s, ops[0]), ops[1..]))
  }

  /** Whatever N is lowered to meanwhile, a call that raises occupancy ends within N. */
  lemma GrantEndsWithinCapacity(s: Ledger, op: Op)
    requires Inv(s) && |Apply(s, op).permits| > |s.permits|
    ensures IsGrant(s, op) && WithinCapacity(Apply(s, op))
  {
    OccupancyStep(s, op);
    var s' := Apply(s, op);
    assert |s'.permits.Keys| == |s'.permits| && |s.permits.Keys| == |s.permits|;
  }

  /** A call that does not lower N keeps occupancy within it. */
  lemma CapacityStep(s: Ledger, op: Op)
    requires Inv(s) && WithinCapacity(s)
    requires op.OpSetMaxJobs? && s.maxJobs.Some? ==> s.maxJobs.value <= op.n
    ensures WithinCapacity(Apply(s, op))
  {
    OccupancyStep(s, op);
    var s' := Apply(s, op);
    assert |s'.permits.Keys| == |s'.permits| && |s.permits.Keys| == |s.permits|;
    if s.maxJobs.None? { assert s'.permits.Keys == {}; }
  }

  /** With N never lowered, occupancy never exceeds N, however the processes interleave. */
  lemma {:induction false} CapacityIsNeverExceeded(s: Ledger, ops: seq<Op>)
    requires Inv(s) && WithinCapacity(s) && NeverLowersCapacity(s, ops)
    ensures WithinCapacity(Run(s, ops))
    decreases |ops|
  {
    if ops != [] {
      StepRespects(s, ops[0]);
      CapacityStep(s, ops[0]);
      CapacityIsNeverExceeded(Apply(s, ops[0]), ops[1..]);
    }
  }

  // ---- Advertising -----------------------------------------------------------------------

  ghost predicate Reconciles(s: Ledger, op: Op) {
    op.OpReconcile? && Reconcile(s, op.evidence, op.scan, op.now).reply.Ok?
  }

  /** The reconciliation at `i` is the one that still counts. */
  ghost predicate CountsAt(s: Ledger, ops: seq<Op>, i: nat) {
    i < |ops| && Reconciles(Run(s, ops[..i]), ops[i]) && OpBeginEpoch !in ops[i + 1..]
  }

  /** A reconciliation committed, and no epoch has begun since. */
  ghost predicate ReconciledThisEpoch(s: Ledger, ops: seq<Op>) {
    exists i: nat :: CountsAt(s, ops, i)
  }

  lemma EpochStep(s: Ledger, op: Op)
    requires Inv(s)
    ensures Apply(s, op).reconciled == Apply(s, op).generation
      <==> Reconciles(s, op) || (!op.OpBeginEpoch? && s.reconciled == s.generation)
  {
    if Target(op).Some? { TargetedCallTouches(s, op); }
    if op.OpReconcile? { ReconcileOnCoherent(s, op.evidence, op.scan, op.now); }
  }

  lemma CountsAtAppend(s: Ledger, ops: seq<Op>, op: Op, i: nat)
    ensures CountsAt(s, ops + [op], i) <==>
      if i == |ops| then Reconciles(Run(s, ops), op) else op != OpBeginEpoch && CountsAt(s, ops, i)
  {
    var all := ops + [op];
    if i < |ops| {
      assert all[..i] == ops[..i] && all[i + 1..] == ops[i + 1..] + [op];
    } else if i == |ops| {
      assert all[..i] == ops && all[i + 1..] == [];
    }
  }

  lemma EpochsAppend(s: Ledger, ops: seq<Op>, op: Op)
    ensures ReconciledThisEpoch(s, ops + [op]) <==>
      Reconciles(Run(s, ops), op) || (op != OpBeginEpoch && ReconciledThisEpoch(s, ops))
  {
    forall i: nat
      ensures CountsAt(s, ops + [op], i) <==>
        if i == |ops| then Reconciles(Run(s, ops), op) else op != OpBeginEpoch && CountsAt(s, ops, i)
    {
      CountsAtAppend(s, ops, op, i);
    }
    assert Reconciles(Run(s, ops), op) ==> CountsAt(s, ops + [op], |ops|);
    if op != OpBeginEpoch && ReconciledThisEpoch(s, ops) {
      var i: nat :| CountsAt(s, ops, i);
      assert CountsAt(s, ops + [op], i);
    }
  }

  lemma {:induction false} ReconciledIffThisEpoch(s: Ledger, ops: seq<Op>)
    requires Inv(s) && s.reconciled < s.generation
    ensures Run(s, ops).reconciled == Run(s, ops).generation <==> ReconciledThisEpoch(s, ops)
    decreases |ops|
  {
    if ops != [] {
      var n := |ops| - 1;
      assert ops == ops[..n] + [ops[n]];
      RunAppends(s, ops[..n], [ops[n]]);
      RunKeepsInv(s, ops[..n]);
      EpochStep(Run(s, ops[..n]), ops[n]);
      ReconciledIffThisEpoch(s, ops[..n]);
      EpochsAppend(s, ops[..n], ops[n]);
    }
  }

  /** Capacity is advertised exactly when N is configured and a reconciliation committed after
      the latest epoch began; it is then N minus occupancy, floored at zero. */
  lemma AdvertisedOnlyAfterReconciliation(ops: seq<Op>)
    ensures var s := Run(EMPTY_LEDGER, ops);
      && (AdvertisedFree(s).Some? <==> s.maxJobs.Some? && ReconciledThisEpoch(EMPTY_LEDGER, ops))
      && (AdvertisedFree(s).Some? && WithinCapacity(s) ==> AdvertisedFree(s).value + |s.permits| == s.maxJobs.value)
      && (AdvertisedFree(s).Some? && !WithinCapacity(s) ==> AdvertisedFree(s).value == 0)
  {
    ReconciledIffThisEpoch(EMPTY_LEDGER, ops);
  }
}
