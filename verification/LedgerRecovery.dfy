/** Crash recovery: cleanup claims against fresh acquisitions, and stages that were persisted
    before their ledger transaction and are replayed after it, whatever ran in between. */
module LedgerRecovery {
  import opened Common
  import opened LedgerTypes
  import opened LedgerSpec
  import opened LedgerLifecycle
  import opened LedgerReconcile
  import opened LedgerRuns
  import opened LedgerFencing

  // ---- Recorded cleanup ------------------------------------------------------------------

  /** A cleanup claim that finds no row wins for good: its holder is never granted again, and
      repeating the claim, with any token, finds the demand closed. */
  lemma CleanupClaimExcludesAcquisition(
      s: Ledger, h: Holder, lane: Lane, token: Token, pid: nat, now: nat, ops: seq<Op>,
      token': Token, pid': nat, now': nat)
    requires Inv(s) && h !in s.permits && token != "" && token' != "" && !LaneClash(s, h, lane)
    ensures var step := ClaimTerminalCleanup(s, h, lane, token, pid, now); var later := Run(step.next, ops);
      && step.reply == Ok(if h in s.demands && s.demands[h].state.Closed() then ClosedAbsent else DemandClosed)
      && h !in later.permits
      && ClaimTerminalCleanup(later, h, lane, token', pid', now').reply == Ok(ClosedAbsent)
  {
    var claimed := ClaimTerminalCleanup(s, h, lane, token, pid, now).next;
    ClaimCleanupTouches(s, h, lane, token, pid, now);
    TouchRespects(s, claimed, h);
    ClosedStaysClosed(claimed, ops, h);
  }

  /** A row under another token was there first: the claim changes nothing and says so. */
  lemma CleanupClaimLosesToHolder(s: Ledger, h: Holder, token: Token, pid: nat, now: nat)
    requires Inv(s) && h in s.permits && s.permits[h].token != token
    ensures ClaimTerminalCleanup(s, h, s.permits[h].lane, token, pid, now) == Step(s, Ok(CleanupStaleAttempt))
  {
    assert CoherentCell(CellOf(s, h));
  }

  // ---- Staged release --------------------------------------------------------------------

  /** A Scale Set release to a closed target can be replayed for ever: every later replay finds
      it done and changes nothing, and every later reconciliation accepts its stage. */
  lemma ClosedReleaseReplays(
      s: Ledger, h: Holder, token: Token, target: ClosedTarget, now: nat, ops: seq<Op>, now': nat)
    requires Inv(s) && ReleaseScaleSet(s, h, token, target, now).reply == Ok(Released)
    ensures var later := Run(ReleaseScaleSet(s, h, token, target, now).next, ops);
      && ReleaseScaleSet(later, h, token, target, now') == Step(later, Ok(AlreadyAbsent))
      && Sound(later, ReleaseStage(h, ScaleSet, token, target))
  {
    var released := ReleaseScaleSet(s, h, token, target, now).next;
    ReleaseScaleSetTouches(s, h, token, target, now);
    TouchRespects(s, released, h);
    ClosedStaysClosed(released, ops, h);
  }

  // ---- Undisturbed runs ------------------------------------------------------------------

  /** Calls without authority over the row that `h` holds: replays, redeliveries, refused takeovers,
      calls with other tokens, reconciliations that attest the row, and whatever names others. */
  ghost predicate Undisturbed(s: Ledger, ops: seq<Op>, h: Holder)
    decreases |ops|
  {
    ops == [] || (
      && (h in s.permits ==> !Authorised(s, ops[0], h))
      && Undisturbed(Apply(s, ops[0]), ops[1..], h))
  }

  /** The permit row is the same, and the demand is in the same lane and state. */
  ghost predicate KeepsHold(c: Cell, c': Cell) {
    && c'.permit == c.permit && c.demand.Some? && c'.demand.Some?
    && c'.demand.value.lane == c.demand.value.lane && c'.demand.value.state == c.demand.value.state
  }

  lemma UnauthorisedCallKeepsDemand(s: Ledger, op: Op, h: Holder)
    requires Inv(s) && h in s.permits && Target(op) == Some(h) && !Authorised(s, op, h)
    ensures h in s.demands && h in Apply(s, op).demands
    ensures Apply(s, op).demands[h].lane == s.demands[h].lane && Apply(s, op).demands[h].state == s.demands[h].state
  {
    assert CoherentCell(CellOf(s, h));
    if !op.OpObserve? && !op.OpPark? && !op.OpCancel? && !op.OpAcquire? && !op.OpAcquireStaged? && !op.OpAdopt? && !op.OpRotate? {
      WrongTokenChangesNothing(s, op, h, op.token);
    }
  }

  lemma UnauthorisedCallKeepsHold(s: Ledger, op: Op, h: Holder)
    requires Inv(s) && h in s.permits && !Authorised(s, op, h)
    ensures KeepsHold(CellOf(s, h), CellOf(Apply(s, op), h))
  {
    assert CoherentCell(CellOf(s, h));
    if !(h in Apply(s, op).permits && Apply(s, op).permits[h] == s.permits[h]) {
      RowChangesNeedAuthority(s, op, h);
      assert false;
    }
    if Target(op) == Some(h) {
      UnauthorisedCallKeepsDemand(s, op, h);
    } else if Target(op).Some? {
      TargetedCallTouches(s, op);
    } else if op.OpReconcile? {
      ReconcileOnCoherent(s, op.evidence, op.scan, op.now);
    }
  }

  lemma {:induction false} UndisturbedRunKeepsHold(s: Ledger, ops: seq<Op>, h: Holder)
    requires Inv(s) && h in s.permits && Undisturbed(s, ops, h)
    ensures KeepsHold(CellOf(s, h), CellOf(Run(s, ops), h))
    decreases |ops|
  {
    assert CoherentCell(CellOf(s, h));
    if ops != [] {
      UnauthorisedCallKeepsHold(s, ops[0], h);
      StepRespects(s, ops[0]);
      UndisturbedRunKeepsHold(Apply(s, ops[0]), ops[1..], h);
    }
  }

  // ---- The recovery claim ----------------------------------------------------------------

  /** The claim's owner never gives it up in the run. */
  ghost predicate KeepsClaim(s: Ledger, ops: seq<Op>)
    decreases |ops|
  {
    ops == [] || (
      && !(ops[0].OpReleaseClaim? && s.claim == Some(Claim(ops[0].token, ops[0].pid)))
      && KeepsClaim(Apply(s, ops[0]), ops[1..]))
  }

  lemma ClaimStep(s: Ledger, op: Op)
    requires Inv(s)
    ensures s.generation <= Apply(s, op).generation && Apply(s, op).migrations == s.migrations
    ensures s.claim.Some? && !(op.OpReleaseClaim? && s.claim == Some(Claim(op.token, op.pid))) ==>
      Apply(s, op).claim.Some? && Apply(s, op).claim.value.token == s.claim.value.token
  {
    if op.OpReconcile? {
      ReconcileOnCoherent(s, op.evidence, op.scan, op.now);
    } else if Target(op).Some? {
      TargetedCallTouches(s, op);
    }
  }

  /** The generation only grows, and a claim that is not given up keeps its token through every
      takeover from a dead owner. */
  lemma {:induction false} ClaimSurvives(s: Ledger, ops: seq<Op>)
    requires Inv(s)
    ensures s.generation <= Run(s, ops).generation
    ensures s.claim.Some? && KeepsClaim(s, ops) ==>
      Run(s, ops).claim.Some? && Run(s, ops).claim.value.token == s.claim.value.token
    decreases |ops|
  {
    if ops != [] {
      ClaimStep(s, ops[0]);
      StepRespects(s, ops[0]);
      ClaimSurvives(Apply(s, ops[0]), ops[1..]);
    }
  }

  // ---- Staged acquisition ----------------------------------------------------------------

  /** The holder's rows are those the staged acquisition committed. */
  ghost predicate AcquireStageHeld(c: Cell, state: PermitState, token: Token) {
    && c.permit.Some? && c.permit.value.lane == ScaleSet && c.permit.value.state == state && c.permit.value.token == token
    && c.demand.Some? && c.demand.value.lane == ScaleSet && c.demand.value.state.Granted?
  }

  /** The staged acquisition is the only one that may grant `h`; once it has, nobody with authority
      over the row acts. */
  ghost predicate StageGuarded(s: Ledger, ops: seq<Op>, h: Holder, state: PermitState, token: Token)
    decreases |ops|
  {
    ops == [] || (
      && (if h in s.permits then !Authorised(s, ops[0], h)
          else h in Apply(s, ops[0]).permits ==>
            ops[0].OpAcquireStaged? && ops[0].token == token && ops[0].state == state)
      && StageGuarded(Apply(s, ops[0]), ops[1..], h, state, token))
  }

  lemma AcquireStagedCommits(
      s: Ledger, h: Holder, state: PermitState, g: nat, worker: Option<nat>, token: Token, now: nat)
    requires Inv(s) && h !in s.permits && h in AcquireStaged(s, h, state, g, worker, token, now).next.permits
    ensures token != ""
    ensures AcquireStageHeld(CellOf(AcquireStaged(s, h, state, g, worker, token, now).next, h), state, token)
  {
    AcquireEffect(s, h, ScaleSet, state, g, worker, Some(token), "", now);
    AcquireTouches(s, h, ScaleSet, state, g, worker, Some(token), "", now);
  }

  lemma GuardedStep(s: Ledger, op: Op, h: Holder, state: PermitState, token: Token)
    requires Inv(s) && (h in s.permits ==> AcquireStageHeld(CellOf(s, h), state, token) && !Authorised(s, op, h))
    requires h !in s.permits && h in Apply(s, op).permits ==>
      op.OpAcquireStaged? && op.token == token && op.state == state
    ensures h in Apply(s, op).permits ==> AcquireStageHeld(CellOf(Apply(s, op), h), state, token)
  {
    if h in s.permits {
      UnauthorisedCallKeepsHold(s, op, h);
    } else if h in Apply(s, op).permits {
      TargetedCallTouches(s, op);
      assert CellOf(s, h) != CellOf(Apply(s, op), h);
      AcquireStagedCommits(s, h, state, op.generation, op.worker, token, op.now);
    }
  }

  lemma StageReplays(s: Ledger, h: Holder, state: PermitState, worker: Option<nat>, token: Token, now: nat)
    requires token != "" && (h in s.permits ==> AcquireStageHeld(CellOf(s, h), state, token))
    ensures Sound(s, AcquireStage(h, ScaleSet, token))
    ensures h in s.permits ==>
      AcquireStaged(s, h, state, s.generation, worker, token, now) == Step(s, Ok(Acquired(token)))
  {
  }

  /** From a holder without a row, at every point of every guarded run, before and after the staged
      acquisition commits, reconciliation accepts its stage; and as soon as the row is there,
      replaying the stage in the epoch of the day returns the same token and changes nothing. */
  lemma {:induction false} StagedAcquisitionReplays(
      s: Ledger, ops: seq<Op>, h: Holder, state: PermitState, token: Token, worker: Option<nat>, now: nat)
    requires Inv(s) && token != "" && (h in s.permits ==> AcquireStageHeld(CellOf(s, h), state, token))
    requires StageGuarded(s, ops, h, state, token)
    ensures var later := Run(s, ops);
      && Sound(later, AcquireStage(h, ScaleSet, token))
      && (h in later.permits ==>
            AcquireStaged(later, h, state, later.generation, worker, token, now) == Step(later, Ok(Acquired(token))))
    decreases |ops|
  {
    if ops == [] {
      StageReplays(s, h, state, worker, token, now);
    } else {
      GuardedStep(s, ops[0], h, state, token);
      StepRespects(s, ops[0]);
      StagedAcquisitionReplays(Apply(s, ops[0]), ops[1..], h, state, token, worker, now);
    }
  }

  // ---- Staged rotation -------------------------------------------------------------------

  /** The row still has the token that the stage names as the previous one. */
  ghost predicate RotationPending(s: Ledger, r: Rotation) {
    && r.holder in s.permits && s.permits[r.holder].lane == ScaleSet && s.permits[r.holder].token !in ["", r.target]
    && PreviousTokenMatches(s, r.holder, r.previous, s.permits[r.holder].token)
  }

  /** The holder's rows are those the rotation committed. */
  ghost predicate RotationHeld(c: Cell, r: Rotation) {
    && c.permit.Some? && c.permit.value.lane == ScaleSet && RotationCommitted(c.permit.value, r)
    && c.demand.Some? && c.demand.value.lane == ScaleSet
  }

  /** Nobody with authority over the row acts, except by this very rotation. */
  ghost predicate RotationGuarded(s: Ledger, ops: seq<Op>, r: Rotation)
    decreases |ops|
  {
    ops == [] || (
      && (r.holder in s.permits && Authorised(s, ops[0], r.holder) ==> ops[0].OpRotate? && ops[0].rotation == r)
      && RotationGuarded(Apply(s, ops[0]), ops[1..], r))
  }

  lemma RotationCommits(s: Ledger, r: Rotation, pid: nat, now: nat)
    requires Inv(s) && r.holder in s.permits
    ensures var step := RotateForRecovery(s, r, pid, now);
      step.next.permits == s.permits || (step.reply == Ok(Rotated) && RotationHeld(CellOf(step.next, r.holder), r))
  {
    assert CoherentCell(CellOf(s, r.holder));
  }

  lemma RotationStep(s: Ledger, op: Op, r: Rotation)
    requires Inv(s) && (RotationPending(s, r) || RotationHeld(CellOf(s, r.holder), r))
    requires Authorised(s, op, r.holder) ==> op.OpRotate? && op.rotation == r
    ensures RotationPending(Apply(s, op), r) || RotationHeld(CellOf(Apply(s, op), r.holder), r)
  {
    ClaimStep(s, op);
    if Authorised(s, op, r.holder) {
      RotationCommits(s, r, op.pid, op.now);
      TargetedCallTouches(s, op);
    } else {
      UnauthorisedCallKeepsHold(s, op, r.holder);
    }
  }

  lemma RotationIsSound(s: Ledger, r: Rotation)
    requires Inv(s) && !RotationMalformed(r) && (RotationPending(s, r) || RotationHeld(CellOf(s, r.holder), r))
    ensures Sound(s, RotationStage(r.holder, ScaleSet, r.previous, r.target))
  {
    assert CoherentCell(CellOf(s, r.holder));
  }

  /** From a row that has the previous token, at every point of every guarded run, before and after
      the rotation commits, reconciliation accepts its stage. */
  lemma {:induction false} StagedRotationIsAccepted(s: Ledger, ops: seq<Op>, r: Rotation)
    requires Inv(s) && !RotationMalformed(r) && (RotationPending(s, r) || RotationHeld(CellOf(s, r.holder), r))
    requires RotationGuarded(s, ops, r)
    ensures Sound(Run(s, ops), RotationStage(r.holder, ScaleSet, r.previous, r.target))
    decreases |ops|
  {
    if ops == [] {
      RotationIsSound(s, r);
    } else {
      RotationStep(s, ops[0], r);
      StepRespects(s, ops[0]);
      StagedRotationIsAccepted(Apply(s, ops[0]), ops[1..], r);
    }
  }

  lemma RotationHeldReplays(s: Ledger, r: Rotation, pid: nat, now: nat)
    requires !RotationMalformed(r) && RotationHeld(CellOf(s, r.holder), r)
    requires r.generation <= s.generation && s.claim == Some(Claim(r.claim, pid))
    ensures RotateForRecovery(s, r, pid, now) == Step(s, Ok(AlreadyRotated))
  {
  }

  /** After the rotation committed, and any undisturbed run later, whichever process owns the claim
      by then finds it done and changes nothing. */
  lemma StagedRotationReplays(s: Ledger, r: Rotation, pid: nat, now: nat, ops: seq<Op>, now': nat)
    requires Inv(s) && RotateForRecovery(s, r, pid, now).reply == Ok(Rotated)
    requires Undisturbed(RotateForRecovery(s, r, pid, now).next, ops, r.holder)
    requires KeepsClaim(RotateForRecovery(s, r, pid, now).next, ops)
    ensures var later := Run(RotateForRecovery(s, r, pid, now).next, ops);
      later.claim.Some? && RotateForRecovery(later, r, later.claim.value.owner, now') == Step(later, Ok(AlreadyRotated))
  {
    var rotated := RotateForRecovery(s, r, pid, now).next;
    RotationCommits(s, r, pid, now);
    RotateTouches(s, r, pid, now);
    TouchRespects(s, rotated, r.holder);
    UndisturbedRunKeepsHold(rotated, ops, r.holder);
    ClaimSurvives(rotated, ops);
    var later := Run(rotated, ops);
    RotationHeldReplays(later, r, later.claim.value.owner, now');
  }

  // ---- Cleanup claims on a row -----------------------------------------------------------

  /** The explicit ways a cleanup claim ends: the owner's exact-token release or post-cleanup
      retention, adoption from a dead process, or a recovery rotation. */
  ghost predicate EndsCleanup(s: Ledger, op: Op, h: Holder)
    requires h in s.permits
  {
    || (Presents(op, h, s.permits[h].token) && !op.OpTransition? && !op.OpClaimCleanup? && !op.OpRetainUncertain?)
    || (op.OpAdopt? && op.holder == h && s.permits[h].pid.Some? && s.permits[h].pid.value !in op.alive
        && op.generation == s.generation && op.lane == s.permits[h].lane)
    || (op.OpRotate? && op.rotation.holder == h && RotateForRecovery(s, op.rotation, op.pid, op.now).reply == Ok(Rotated))
  }

  ghost predicate HoldsCleanup(s: Ledger, h: Holder, token: Token) {
    h in s.permits && s.permits[h].state.Cleaning? && s.permits[h].token == token
  }

  lemma CleaningStep(s: Ledger, op: Op, h: Holder, token: Token)
    requires Inv(s) && HoldsCleanup(s, h, token) && !EndsCleanup(s, op, h)
    ensures HoldsCleanup(Apply(s, op), h, token)
  {
    var s' := Apply(s, op);
    if !(h in s'.permits && s'.permits[h] == s.permits[h]) {
      RowChangesNeedAuthority(s, op, h);
      assert op.OpTransition? || op.OpClaimCleanup? || op.OpRetainUncertain?;
    }
  }

  ghost predicate NeverEndsCleanup(s: Ledger, ops: seq<Op>, h: Holder)
    decreases |ops|
  {
    ops == [] || (
      && (h in s.permits ==> !EndsCleanup(s, ops[0], h))
      && NeverEndsCleanup(Apply(s, ops[0]), ops[1..], h))
  }

  /** A cleanup claim survives every run of transitions, uncertain retentions, reconciliations and
      anything else that does not end it explicitly. */
  lemma {:induction false} CleaningSurvives(s: Ledger, ops: seq<Op>, h: Holder, token: Token)
    requires Inv(s) && HoldsCleanup(s, h, token) && NeverEndsCleanup(s, ops, h)
    ensures HoldsCleanup(Run(s, ops), h, token)
    decreases |ops|
  {
    if ops != [] {
      CleaningStep(s, ops[0], h, token);
      StepRespects(s, ops[0]);
      CleaningSurvives(Apply(s, ops[0]), ops[1..], h, token);
    }
  }
}
