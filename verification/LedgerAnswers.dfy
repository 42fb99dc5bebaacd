/** What each answer of the ledger means: when exactly a call succeeds, stated over the rows
    themselves, and which rows it then leaves behind. */
module LedgerAnswers {
  import opened Common
  import opened LedgerTypes
  import opened LedgerSpec
  import opened LedgerLifecycle
  import opened LedgerReconcile
  import opened LedgerRuns
  import opened LedgerRecovery

  // ---- Vocabulary ------------------------------------------------------------------------

  /** No other row has the token. */
  ghost predicate IsFree(s: Ledger, h: Holder, token: Token) {
    forall k :: k in s.permits && k != h ==> s.permits[k].token != token
  }

  ghost predicate IsClosed(s: Ledger, h: Holder) {
    h in s.demands && (s.demands[h].state == Terminal || s.demands[h].state == Cancelled)
  }

  /** Demand of `h`, if there is any, is of this lane. */
  ghost predicate InLane(s: Ledger, h: Holder, lane: Lane) {
    h in s.demands ==> s.demands[h].lane == lane
  }

  /** Only the demand row of `h` changed: to this state and time, keeping its ticket, or, if there was
      none, as a new row at the end of the queue. */
  ghost predicate OnlyDemand(
      s: Ledger, s': Ledger, h: Holder, lane: Lane, scope: string, firstSeen: nat, state: DemandState, updated: nat)
  {
    && h in s'.demands && s' == s.(demands := s.demands[h := s'.demands[h]])
    && s'.demands[h].state == state && s'.demands[h].updated == updated
    && (if h in s.demands then SameTicket(s.demands[h], s'.demands[h])
        else
          && s'.demands[h].lane == lane && s'.demands[h].scope == scope && s'.demands[h].firstSeen == firstSeen
          && forall k :: k in s.demands ==> s.demands[k].sequence < s'.demands[h].sequence)
  }

  /** Only the demand row of `h` changed, in the way a permit row vouches for it: eligible demand is
      granted, missing demand is created granted, any other is left alone. */
  ghost predicate OnlyVouched(s: Ledger, s': Ledger, h: Holder, lane: Lane, now: nat) {
    if h in s.demands && s.demands[h].state != Eligible then s' == s
    else OnlyDemand(s, s', h, lane, "", now, Granted, now)
  }

  lemma VouchingIsOnlyDemand(s: Ledger, h: Holder, lane: Lane, now: nat)
    ensures OnlyVouched(s, PutDemand(s, h, VouchedDemand(s, h, lane, now)), h, lane, now)
  {
    MaxSequenceIsMax(s.demands);
    if h in s.demands { assert s.demands[h := s.demands[h]] == s.demands; }
  }

  /** The change of a demand row that keeps its ticket. */
  ghost predicate Becomes(d: Demand, d': Demand, state: DemandState, updated: nat) {
    SameTicket(d, d') && d'.state == state && d'.updated == updated
  }

  // ---- Configuration and epochs ----------------------------------------------------------

  lemma ConfigurationAnswers(s: Ledger, n: nat)
    ensures SetMaxJobs(s, n).next == s.(maxJobs := Some(n))
    ensures SetMaxJobsIfUnset(s, n).reply <==> s.maxJobs == None
    ensures SetMaxJobsIfUnset(s, n).next == if s.maxJobs == None then s.(maxJobs := Some(n)) else s
    ensures BeginEpoch(s).next == s.(generation := s.generation + 1) && BeginEpoch(s).reply == s.generation + 1
  {
  }

  // ---- The recovery claim ----------------------------------------------------------------

  /** A claim is granted exactly if nobody holds it or its recorded owner is dead; a live owner
      excludes everybody, and a takeover keeps the token. */
  lemma ClaimExcludesWhileOwnerLives(s: Ledger, pid: nat, alive: set<nat>, minted: Token)
    ensures var step := ClaimRecovery(s, pid, alive, minted);
      && (step.reply.Ok? <==>
            s.claim == None || (s.claim.value.token != "" && s.claim.value.owner != 0 && s.claim.value.owner !in alive))
      && (step.reply.Ok? ==>
            && step.reply.value == (if s.claim == None then minted else s.claim.value.token)
            && step.next == s.(claim := Some(Claim(step.reply.value, pid))))
      && (step.reply.Err? ==> step.next == s)
      && (s.claim.Some? && s.claim.value.token != "" && s.claim.value.owner != 0 && s.claim.value.owner in alive ==>
            step.reply == Err(RecoveryClaimed(s.claim.value.owner)))
  {
  }

  lemma ReleasingTheClaim(s: Ledger, token: Token, pid: nat)
    ensures var step := ReleaseClaim(s, token, pid);
      && (step.reply.Ok? <==> s.claim == Some(Claim(token, pid)))
      && step.next == if s.claim == Some(Claim(token, pid)) then s.(claim := None) else s
  {
  }

  /** Every claim in the run is made while `owner` is alive. */
  predicate OwnerLives(ops: seq<Op>, owner: nat) {
    forall i :: 0 <= i < |ops| && ops[i].OpClaimRecovery? ==> owner in ops[i].alive
  }

  lemma ClaimUntouched(s: Ledger, op: Op)
    requires Inv(s) && !op.OpClaimRecovery? && !op.OpReleaseClaim?
    ensures Apply(s, op).claim == s.claim
  {
    if Target(op).Some? {
      TargetedCallTouches(s, op);
    } else if op.OpReconcile? {
      ReconcileOnCoherent(s, op.evidence, op.scan, op.now);
    }
  }

  /** At most one live process holds the claim: as long as its owner lives and does not give it up,
      token and owner stay, whatever else is called. */
  lemma {:induction false} ClaimIsExclusive(s: Ledger, ops: seq<Op>)
    requires Inv(s) && s.claim.Some? && OwnerLives(ops, s.claim.value.owner) && KeepsClaim(s, ops)
    ensures Run(s, ops).claim == s.claim
    decreases |ops|
  {
    if ops != [] {
      var op := ops[0];
      if op.OpClaimRecovery? {
        ClaimExcludesWhileOwnerLives(s, op.pid, op.alive, op.minted);
      } else if !op.OpReleaseClaim? {
        ClaimUntouched(s, op);
      }
      StepRespects(s, op);
      assert forall i :: 0 <= i < |ops[1..]| ==> ops[1..][i] == ops[i + 1];
      ClaimIsExclusive(Apply(s, op), ops[1..]);
    }
  }

  // ---- Demand ----------------------------------------------------------------------------

  /** An observation is refused exactly for another lane. It inserts new demand, refreshes open
      demand, revives parked demand with its old ticket, and leaves closed demand alone. */
  lemma ObservationAnswers(s: Ledger, h: Holder, lane: Lane, scope: string, firstSeen: nat, observed: nat)
    ensures var step := ObserveDemand(s, h, lane, scope, firstSeen, observed);
      && (step.reply.Ok? <==> InLane(s, h, lane) && (h in s.permits ==> s.permits[h].lane == lane))
      && (step.reply.Err? ==>
            && step.next == s
            && step.reply.error == DemandLaneMismatch(h, lane, if h in s.permits && s.permits[h].lane != lane
                                                               then s.permits[h].lane else s.demands[h].lane))
      && (step.reply.Ok? ==> h in step.next.demands && step.reply.value == step.next.demands[h])
      && (step.reply.Ok? && IsClosed(s, h) ==> step.next == s)
      && (step.reply.Ok? && !IsClosed(s, h) ==>
            OnlyDemand(s, step.next, h, lane, scope, firstSeen,
                       if h !in s.demands then (if h in s.permits then Granted else Eligible)
                       else if s.demands[h].state == Waiting then Eligible else s.demands[h].state,
                       observed))
  {
    MaxSequenceIsMax(s.demands);
    if IsClosed(s, h) { assert s.demands[h := s.demands[h]] == s.demands; }
  }

  lemma ParkingAnswers(s: Ledger, h: Holder, now: nat)
    ensures var step := ParkDemand(s, h, now);
      && (step.reply <==> h in s.demands && s.demands[h].state == Eligible)
      && (step.reply ==> OnlyDemand(s, step.next, h, Native, "", 0, Waiting, now))
      && (!step.reply ==> step.next == s)
  {
  }

  lemma CancellingAnswers(s: Ledger, h: Holder, now: nat)
    ensures var step := CancelDemand(s, h, now);
      && (step.reply <==> h in s.demands && h !in s.permits && (s.demands[h].state == Eligible || s.demands[h].state == Waiting))
      && (step.reply ==> OnlyDemand(s, step.next, h, Native, "", 0, Cancelled, now))
      && (!step.reply ==> step.next == s)
  {
  }

  // ---- Acquisition -----------------------------------------------------------------------

  lemma AdmissionAnswers(s: Ledger, h: Holder, d: Demand, state: PermitState, worker: Option<nat>, token: Token, now: nat)
    requires s.maxJobs.Some?
    ensures var step := Admit(s, h, d, state, worker, token, now); var r := step.reply;
      && (r == Ok(Full) || r == Ok(Deferred) || r == Ok(Acquired(token)) || r == Err(Storage))
      && (r == Ok(Full) <==> |s.permits| >= s.maxJobs.value)
      && (r == Ok(Full) || r == Ok(Deferred) ==> step.next == PutDemand(s, h, d))
      && (r == Err(Storage) ==> step.next == s)
  {
  }

  /** Whoever is told it acquired is told the token it brought. If there was a row already, that row
      had this very token and nothing changed: a duplicate never learns its owner's token. */
  lemma AcquiredOnlyByTheBringer(
      s: Ledger, h: Holder, lane: Lane, state: PermitState, g: nat, worker: Option<nat>, staged: Option<Token>, minted: Token,
      now: nat)
    ensures var step := Acquire(s, h, lane, state, g, worker, staged, minted, now);
      step.reply.Ok? && step.reply.value.Acquired? ==>
        && step.reply.value.attemptToken == (if staged.Some? then staged.value else minted)
        && (h in s.permits ==> staged == Some(s.permits[h].token) && step.next == s)
  {
    if s.maxJobs.Some? {
      AdmissionAnswers(s, h, Requeued(s, h, lane, now), state, worker, if staged.Some? then staged.value else minted, now);
    }
  }

  /** A held row answers an acquire of its lane and epoch with its token exactly if the stage presents
      that token and state on granted demand, and otherwise that it is held; nothing changes. */
  lemma HeldRowAnswers(
      s: Ledger, h: Holder, lane: Lane, state: PermitState, worker: Option<nat>, staged: Option<Token>, minted: Token, now: nat)
    requires h in s.permits
    ensures var step := Acquire(s, h, lane, state, s.generation, worker, staged, minted, now);
      && step.next == s
      && step.reply ==
         if s.permits[h].lane != lane then Err(DemandLaneMismatch(h, lane, s.permits[h].lane))
         else if staged == Some(s.permits[h].token) && s.permits[h].state == state then
           if h !in s.demands then Err(UnknownHolder(h))
           else if s.demands[h].lane != lane then Err(DemandLaneMismatch(h, lane, s.demands[h].lane))
           else if s.demands[h].state == Granted then Ok(Acquired(s.permits[h].token))
           else Ok(AlreadyHeld)
         else Ok(AlreadyHeld)
  {
  }

  /** A grant writes the caller's own row and turns its demand granted. */
  lemma GrantWritesTheRow(
      s: Ledger, h: Holder, lane: Lane, state: PermitState, g: nat, worker: Option<nat>, staged: Option<Token>, minted: Token,
      now: nat)
    requires h !in s.permits
    ensures var step := Acquire(s, h, lane, state, g, worker, staged, minted, now);
      var token := if staged.Some? then staged.value else minted;
      step.reply == Ok(Acquired(token)) ==>
        && s.generation == g && IsFree(s, h, token) && InLane(s, h, lane) && !IsClosed(s, h)
        && s.maxJobs.Some? && |s.permits| < s.maxJobs.value
        && step.next.permits == s.permits[h := Permit(lane, state, now, now, g, worker, token, None, None, None)]
        && OnlyDemand(s, step.next.(permits := s.permits), h, lane, "", now, Granted, now)
  {
    AcquireEffect(s, h, lane, state, g, worker, staged, minted, now);
    MaxSequenceIsMax(s.demands);
  }

  lemma QueueingIsOnlyDemand(s: Ledger, h: Holder, lane: Lane, now: nat)
    ensures OnlyDemand(s, PutDemand(s, h, Requeued(s, h, lane, now)), h, lane, "", now, Eligible, now)
  {
    MaxSequenceIsMax(s.demands);
  }

  /** Why an acquire of a holder without a row is not granted. */
  lemma RefusedAcquireMeans(
      s: Ledger, h: Holder, lane: Lane, state: PermitState, g: nat, worker: Option<nat>, staged: Option<Token>, minted: Token,
      now: nat)
    requires h !in s.permits
    ensures var r := Acquire(s, h, lane, state, g, worker, staged, minted, now).reply;
      && (r == Ok(StaleGeneration) <==> s.generation != g)
      && (r == Ok(NotConfigured) <==> s.generation == g && s.maxJobs == None)
      && (r == Ok(ClosedDemand) <==> s.generation == g && s.maxJobs.Some? && InLane(s, h, lane) && IsClosed(s, h))
      && (r == Ok(Full) <==>
            s.generation == g && s.maxJobs.Some? && InLane(s, h, lane) && !IsClosed(s, h) && |s.permits| >= s.maxJobs.value)
      && (r.Err? && r.error.DemandLaneMismatch? <==> s.generation == g && s.maxJobs.Some? && !InLane(s, h, lane))
      && r != Ok(AlreadyHeld)
  {
    if s.maxJobs.Some? {
      AdmissionAnswers(s, h, Requeued(s, h, lane, now), state, worker, if staged.Some? then staged.value else minted, now);
    }
  }

  /** Only being full or deferred queues the demand of a holder without a row; every other answer
      short of a grant changes nothing. */
  lemma RefusedAcquireLeaves(
      s: Ledger, h: Holder, lane: Lane, state: PermitState, g: nat, worker: Option<nat>, staged: Option<Token>, minted: Token,
      now: nat)
    requires h !in s.permits
    ensures var step := Acquire(s, h, lane, state, g, worker, staged, minted, now); var r := step.reply;
      && (r == Ok(Full) || r == Ok(Deferred) ==> OnlyDemand(s, step.next, h, lane, "", now, Eligible, now))
      && (r != Ok(Full) && r != Ok(Deferred) && !(r.Ok? && r.value.Acquired?) ==> step.next == s)
  {
    if s.maxJobs.Some? {
      AdmissionAnswers(s, h, Requeued(s, h, lane, now), state, worker, if staged.Some? then staged.value else minted, now);
      QueueingIsOnlyDemand(s, h, lane, now);
    }
  }

  /** Deferred, on a clock that does not read zero, means that somebody is older: below N, another eligible demand refreshed
      within the staleness window has a strictly older ticket. */
  lemma DeferredBehindAnOlder(
      s: Ledger, h: Holder, lane: Lane, state: PermitState, g: nat, worker: Option<nat>, staged: Option<Token>, minted: Token,
      now: nat) returns (k: Holder)
    requires Inv(s) && h !in s.permits && now > 0
    requires Acquire(s, h, lane, state, g, worker, staged, minted, now).reply == Ok(Deferred)
    ensures s.maxJobs.Some? && |s.permits| < s.maxJobs.value
    ensures k != h && k in s.demands && s.demands[k].state == Eligible && s.demands[k].updated + 300 > now
    ensures var own := Acquire(s, h, lane, state, g, worker, staged, minted, now).next.demands;
      h in own && (s.demands[k].firstSeen < own[h].firstSeen
                   || (s.demands[k].firstSeen == own[h].firstSeen && s.demands[k].sequence < own[h].sequence))
  {
    var d := Requeued(s, h, lane, now);
    var queued := s.demands[h := d];
    assert Contends(d, now);
    MaxSequenceIsMax(s.demands);
    k :| k in queued && k != h && Contends(queued[k], now) && !TicketBefore(queued[h], queued[k]);
    assert queued[k] == s.demands[k];
  }

  /** The staged acquire is the common one for the Scale Set lane, and never without a token. */
  lemma StagedAcquireAnswers(s: Ledger, h: Holder, state: PermitState, g: nat, worker: Option<nat>, token: Token, now: nat)
    ensures var step := AcquireStaged(s, h, state, g, worker, token, now);
      if token == "" then step == Step(s, Err(StaleAttempt(h)))
      else step == Acquire(s, h, ScaleSet, state, g, worker, Some(token), "", now)
  {
  }

  /** Ownership is exclusive over runs: while nobody with authority acts on a held row, every acquire
      of its holder that is answered with a token brought exactly the row's. */
  lemma OwnershipIsExclusive(
      s: Ledger, ops: seq<Op>, h: Holder, lane: Lane, state: PermitState, g: nat, worker: Option<nat>, staged: Option<Token>,
      minted: Token, now: nat)
    requires Inv(s) && h in s.permits && Undisturbed(s, ops, h)
    ensures var step := Acquire(Run(s, ops), h, lane, state, g, worker, staged, minted, now);
      step.reply.Ok? && step.reply.value.Acquired? ==> staged == Some(s.permits[h].token) && step.next == Run(s, ops)
  {
    UndisturbedRunKeepsHold(s, ops, h);
    AcquiredOnlyByTheBringer(Run(s, ops), h, lane, state, g, worker, staged, minted, now);
  }

  // ---- Taking over a row -----------------------------------------------------------------

  /** The recorded process is dead, or is the caller itself and has let its attempt go. */
  ghost predicate LetGo(s: Ledger, h: Holder, lane: Lane, pid: nat, alive: set<nat>)
    requires h in s.permits
  {
    var p := s.permits[h];
    && p.pid.Some?
    && (p.pid.value !in alive
        || (lane == Native && p.pid.value == pid && p.state == Uncertain && h in s.demands && s.demands[h].state == Terminal))
  }

  /** A redelivery is adopted exactly in the current epoch, for a row of the caller's lane whose process
      is dead or has let go, under a token that is on no other row; the row is then the caller's. */
  lemma AdoptionAnswers(
      s: Ledger, h: Holder, lane: Lane, state: PermitState, g: nat, pid: nat, alive: set<nat>, minted: Token, now: nat)
    ensures var step := AdoptForRedelivery(s, h, lane, state, g, pid, alive, minted, now); var r := step.reply;
      && (r.Ok? && r.value.Adopted? <==>
            && s.generation == g && h in s.permits && s.permits[h].lane == lane && LetGo(s, h, lane, pid, alive)
            && IsFree(s, h, minted) && InLane(s, h, lane))
      && (r == Ok(AdoptStaleGeneration) <==> s.generation != g)
      && (r == Ok(AdoptMissing) <==> s.generation == g && h !in s.permits)
      && (r == Ok(LiveHolder) <==>
            s.generation == g && h in s.permits && !(s.permits[h].lane == lane && LetGo(s, h, lane, pid, alive)))
      && (r.Err? ==>
            r.error == if !IsFree(s, h, minted) then Storage else DemandLaneMismatch(h, lane, s.demands[h].lane))
      && (r.Ok? && r.value.Adopted? ==>
            && r.value.attemptToken == minted
            && step.next.permits == s.permits[h := Permit(lane, state, s.permits[h].acquired, now, g, Some(pid), minted,
                                                          None, None, None)]
            && OnlyVouched(s, step.next.(permits := s.permits), h, lane, now))
      && (!(r.Ok? && r.value.Adopted?) ==> step.next == s)
  {
    VouchingIsOnlyDemand(s, h, lane, now);
  }

  /** On a coherent ledger the demand of an adopted row does not change. */
  lemma AdoptionKeepsDemand(
      s: Ledger, h: Holder, lane: Lane, state: PermitState, g: nat, pid: nat, alive: set<nat>, minted: Token, now: nat)
    requires Inv(s)
    ensures AdoptForRedelivery(s, h, lane, state, g, pid, alive, minted, now).next.demands == s.demands
  {
    AdoptionAnswers(s, h, lane, state, g, pid, alive, minted, now);
    assert CoherentCell(CellOf(s, h));
  }

  /** The stage is well formed, and presented by the owner of the recovery claim it names. */
  ghost predicate MayRotate(s: Ledger, r: Rotation, pid: nat) {
    && r.target != "" && r.claim != "" && r.previousPid != 0 && r.previous != Some("") && r.previous != Some(r.target)
    && s.claim == Some(Claim(r.claim, pid))
  }

  /** A recovery rotates a row exactly for the owner of the claim, in the current epoch, from the pid and
      token the stage names, to a token on no other row; the row then carries the proof. It finds
      its rotation done exactly by that proof, in that epoch or later. Nothing else changes a row. */
  lemma RotationAnswers(s: Ledger, r: Rotation, pid: nat, now: nat)
    ensures var step := RotateForRecovery(s, r, pid, now); var h := r.holder;
      && (step.reply == Ok(Rotated) <==>
            && MayRotate(s, r, pid) && h in s.permits && s.permits[h].lane == ScaleSet
            && s.permits[h].token != r.target && s.permits[h].token != ""
            && s.generation == r.generation && s.permits[h].pid == Some(r.previousPid)
            && (if r.previous.Some? then r.previous.value == s.permits[h].token
                else h in s.migrations && s.migrations[h] == s.permits[h].token)
            && IsFree(s, h, r.target) && InLane(s, h, ScaleSet))
      && (step.reply == Ok(AlreadyRotated) <==>
            && MayRotate(s, r, pid) && h in s.permits && s.permits[h].lane == ScaleSet && s.permits[h].token == r.target
            && r.generation <= s.generation && s.permits[h].generation == r.generation
            && s.permits[h].recoveryClaim == Some(r.claim) && s.permits[h].recoveryPid == Some(r.previousPid)
            && s.permits[h].recoveryToken == r.previous)
      && (step.reply == Ok(RotationMissing) <==> MayRotate(s, r, pid) && h !in s.permits)
      && (!MayRotate(s, r, pid) ==> step.reply == Ok(RotationStaleAttempt))
      && (step.reply == Ok(RotationStaleGeneration) <==>
            && MayRotate(s, r, pid) && h in s.permits && s.permits[h].lane == ScaleSet
            && (if s.permits[h].token == r.target then s.generation < r.generation else s.generation != r.generation))
      && (step.reply.Err? ==>
            step.reply.error ==
              if s.permits[h].lane != ScaleSet then DemandLaneMismatch(h, ScaleSet, s.permits[h].lane)
              else if !IsFree(s, h, r.target) then Storage
              else DemandLaneMismatch(h, ScaleSet, s.demands[h].lane))
      && (step.reply == Ok(Rotated) ==>
            && step.next.permits == s.permits[h :=
                 Permit(ScaleSet, r.state, s.permits[h].acquired, now, r.generation, Some(pid), r.target,
                        Some(r.claim), Some(r.previousPid), r.previous)]
            && OnlyVouched(s, step.next.(permits := s.permits), h, ScaleSet, now))
      && (step.reply != Ok(Rotated) ==> step.next == s)
  {
    VouchingIsOnlyDemand(s, r.holder, ScaleSet, now);
  }

  // ---- Token-fenced changes of a held row ------------------------------------------------

  ghost predicate HoldsUnder(s: Ledger, h: Holder, token: Token) {
    h in s.permits && s.permits[h].token == token
  }

  /** Why a token-fenced call in epoch `g` is refused, if it is. */
  ghost predicate IsRefused(s: Ledger, h: Holder, g: nat, token: Token, r: Result<(), LedgerError>) {
    && (r.Ok? <==> s.generation == g && HoldsUnder(s, h, token))
    && (s.generation != g ==> r == Err(StaleGenerationError(s.generation, g)))
    && (s.generation == g && !HoldsUnder(s, h, token) ==>
          r == Err(if h in s.permits || h in s.demands then StaleAttempt(h) else UnknownHolder(h)))
  }

  /** A transition goes through exactly in its epoch for the row's token: it sets state and pid, and
      leaves a cleaning row as it is. */
  lemma TransitionAnswers(s: Ledger, h: Holder, state: PermitState, g: nat, token: Token, pid: nat, now: nat)
    ensures var step := TransitionOwned(s, h, state, g, token, pid, now);
      && IsRefused(s, h, g, token, step.reply)
      && step.next ==
         if step.reply.Ok? && s.permits[h].state != Cleaning
         then s.(permits := s.permits[h := s.permits[h].(state := state, pid := Some(pid), generation := g, updated := now)])
         else s
  {
  }

  /** A cleanup claim takes the row of its own token, which is cleaning from then on; without a row it
      closes open demand, or finds it closed and, for cancelled native work, records the token. */
  lemma CleanupClaimAnswers(s: Ledger, h: Holder, lane: Lane, token: Token, pid: nat, now: nat)
    ensures var step := ClaimTerminalCleanup(s, h, lane, token, pid, now); var r := step.reply;
      var inLane := InLane(s, h, lane) && (h in s.permits ==> s.permits[h].lane == lane);
      && (r == Ok(Claimed) <==> token != "" && HoldsUnder(s, h, token) && inLane)
      && (r == Ok(CleanupStaleAttempt) <==> token == "" || (h in s.permits && inLane && s.permits[h].token != token))
      && (r == Ok(ClosedAbsent) <==> token != "" && h !in s.permits && inLane && IsClosed(s, h))
      && (r == Ok(DemandClosed) <==> token != "" && h !in s.permits && inLane && !IsClosed(s, h))
      && (r.Err? <==> token != "" && !inLane)
      && (r.Err? ==>
            r.error == DemandLaneMismatch(h, lane, if h in s.permits && s.permits[h].lane != lane
                                                   then s.permits[h].lane else s.demands[h].lane))
      && (r == Ok(Claimed) ==>
            && h in step.next.permits && step.next.permits[h].state == Cleaning
            && step.next == s.(permits := s.permits[h :=
                 s.permits[h].(state := Cleaning, pid := Some(pid), generation := s.generation, updated := now)]))
      && (r == Ok(ClosedAbsent) ==>
            step.next == if lane == Native && s.demands[h].state == Cancelled
                         then s.(releases := s.releases + {(h, token)}) else s)
      && (r == Ok(DemandClosed) ==> OnlyDemand(s, step.next, h, lane, "", now, Terminal, now))
      && (r == Ok(CleanupStaleAttempt) || r.Err? ==> step.next == s)
  {
    MaxSequenceIsMax(s.demands);
  }

  /** What releasing does to the demand: closing closes; requeueing makes eligible or granted demand
      eligible with its ticket and never revives closed work. */
  ghost predicate ReleasesDemand(s: Ledger, s': Ledger, h: Holder, to: DemandState, now: nat) {
    if h in s.demands && (to == Terminal || to == Cancelled || (to == Eligible && s.demands[h].state in {Eligible, Granted}))
    then OnlyDemand(s, s', h, Native, "", 0, to, now)
    else s' == s
  }

  /** A release goes through exactly for the row's token. */
  lemma ReleaseAnswers(s: Ledger, h: Holder, to: DemandState, token: Token, now: nat)
    ensures var step := ReleaseOwned(s, h, to, token, now);
      && (step.reply <==> HoldsUnder(s, h, token))
      && (!step.reply ==> step.next == s)
      && (step.reply ==>
            step.next.permits == s.permits - {h} && ReleasesDemand(s, step.next.(permits := s.permits), h, to, now))
  {
    if h in s.demands { assert s.demands[h := s.demands[h]] == s.demands; }
  }

  /** In particular the granted demand of a requeued holder is eligible again, in its old place. */
  lemma RequeueKeepsThePlace(s: Ledger, h: Holder, token: Token, now: nat)
    requires Inv(s) && HoldsUnder(s, h, token) && h in s.demands && s.demands[h].state == Granted
    ensures var s' := ReleaseOwned(s, h, Eligible, token, now).next;
      h !in s'.permits && h in s'.demands && Becomes(s.demands[h], s'.demands[h], Eligible, now)
  {
    ReleaseAnswers(s, h, Eligible, token, now);
  }

  /** A native release goes through exactly for a native row under its token, and closes its demand.
      Without a row it is done already exactly if the demand is in the named state, or was cancelled
      after a recorded cleanup claim; either way it takes back that record. */
  lemma NativeReleaseAnswers(s: Ledger, h: Holder, token: Token, target: ClosedTarget, now: nat)
    ensures var step := ReleaseNative(s, h, token, target, now); var r := step.reply;
      && (r == Ok(Released) <==> HoldsUnder(s, h, token) && s.permits[h].lane == Native && InLane(s, h, Native))
      && (r == Ok(AlreadyAbsent) <==>
            && h !in s.permits && h in s.demands && s.demands[h].lane == Native
            && (s.demands[h].state == target
                || (target == Terminal && s.demands[h].state == Cancelled && (h, token) in s.releases)))
      && (r.Err? <==>
            if h in s.permits then s.permits[h].lane != Native || (s.permits[h].token == token && !InLane(s, h, Native))
            else !InLane(s, h, Native))
      && (r.Err? ==>
            && step.next == s
            && r.error == DemandLaneMismatch(h, Native, if h in s.permits && s.permits[h].lane != Native
                                                        then s.permits[h].lane else s.demands[h].lane))
      && (r.Ok? ==> step.next.releases == s.releases - {(h, token)})
      && (r.Ok? && r != Ok(Released) ==> step.next == s.(releases := s.releases - {(h, token)}))
      && (r == Ok(Released) ==>
            && step.next.permits == s.permits - {h}
            && OnlyDemand(s, step.next.(permits := s.permits, releases := s.releases), h, Native, "", now, target, now))
  {
    MaxSequenceIsMax(s.demands);
  }

  /** A Scale Set release goes through exactly for a Scale Set row under its token, to a state a release
      may name, requeueing only granted work; without a row it is done already exactly if the
      demand is in the named state. */
  lemma ScaleSetReleaseAnswers(s: Ledger, h: Holder, token: Token, target: DemandState, now: nat)
    ensures var step := ReleaseScaleSet(s, h, token, target, now); var r := step.reply;
      var named := token != "" && target != Granted && target != Waiting;
      && (r == Ok(Released) <==>
            && named && HoldsUnder(s, h, token) && s.permits[h].lane == ScaleSet
            && h in s.demands && s.demands[h].lane == ScaleSet
            && (target == Eligible ==> s.demands[h].state in {Eligible, Granted}))
      && (r == Ok(AlreadyAbsent) <==>
            named && h !in s.permits && h in s.demands && s.demands[h].lane == ScaleSet && s.demands[h].state == target)
      && (r.Err? <==>
            && named
            && (if h in s.permits
                then s.permits[h].lane != ScaleSet
                     || (s.permits[h].token == token && (h !in s.demands || s.demands[h].lane != ScaleSet))
                else !InLane(s, h, ScaleSet)))
      && (r.Err? ==>
            r.error == if h in s.permits && s.permits[h].lane != ScaleSet then DemandLaneMismatch(h, ScaleSet, s.permits[h].lane)
                       else if h !in s.demands then UnknownHolder(h)
                       else DemandLaneMismatch(h, ScaleSet, s.demands[h].lane))
      && (r != Ok(Released) ==> step.next == s)
      && (r == Ok(Released) ==>
            && step.next.permits == s.permits - {h}
            && OnlyDemand(s, step.next.(permits := s.permits), h, ScaleSet, "", 0, target, now))
  {
  }

  /** The row is uncertain and still held; eligible or granted demand is terminal. */
  ghost predicate IsRetained(s: Ledger, s': Ledger, h: Holder, g: nat, now: nat)
    requires h in s.permits
  {
    && s'.permits == s.permits[h := s.permits[h].(state := Uncertain, generation := g, updated := now)]
    && if h in s.demands && s.demands[h].state in {Eligible, Granted}
       then OnlyDemand(s, s'.(permits := s.permits), h, Native, "", 0, Terminal, now)
       else s'.(permits := s.permits) == s
  }

  /** Retention goes through exactly in its epoch for the row's token; uncertain retention leaves a
      cleaning row alone, a recorded failure demotes it. */
  lemma RetentionAnswers(s: Ledger, h: Holder, g: nat, token: Token, now: nat)
    ensures var step := RetainUncertain(s, h, g, token, now);
      && IsRefused(s, h, g, token, step.reply)
      && (if step.reply.Ok? && s.permits[h].state != Cleaning then IsRetained(s, step.next, h, g, now) else step.next == s)
    ensures var step := RetainRecordedFailure(s, h, g, token, now);
      && IsRefused(s, h, g, token, step.reply)
      && (if step.reply.Ok? then IsRetained(s, step.next, h, g, now) else step.next == s)
  {
  }

  /** Retention after a cleanup goes through exactly for a native row under its token, in any epoch;
      the row is then uncertain and the caller's, and its demand, unless cancelled, terminal. */
  lemma CleanupRetentionAnswers(s: Ledger, h: Holder, token: Token, pid: nat, now: nat)
    ensures var step := RetainAfterCleanup(s, h, token, pid, now); var r := step.reply;
      && (r.Ok? <==> token != "" && HoldsUnder(s, h, token) && s.permits[h].lane == Native && InLane(s, h, Native))
      && (r.Err? ==>
            && step.next == s
            && r.error == if token == "" || h !in s.permits || (s.permits[h].lane == Native && s.permits[h].token != token)
                          then StaleAttempt(h)
                          else DemandLaneMismatch(h, Native, if s.permits[h].lane != Native then s.permits[h].lane
                                                             else s.demands[h].lane))
      && (r.Ok? ==>
            && step.next.permits == s.permits[h :=
                 s.permits[h].(state := Uncertain, generation := s.generation, updated := now, pid := Some(pid))]
            && if h in s.demands && s.demands[h].state == Cancelled then step.next.(permits := s.permits) == s
               else OnlyDemand(s, step.next.(permits := s.permits), h, Native, "", now, Terminal, now))
  {
    MaxSequenceIsMax(s.demands);
    if h in s.demands { assert s.demands[h := s.demands[h]] == s.demands; }
  }

  // ---- Reconciliation --------------------------------------------------------------------

  /** What the recorded rows must say for a line of evidence to stand. A live worker must own its
      row. A rotation stage must find the previous token, or its own with the proof. A release
      stage must find its token, or no row and the demand it left. An acquisition stage must find
      its token or no row. */
  ghost predicate Stands(s: Ledger, e: Evidence) {
    var h := e.holder;
    match e
    case LiveEvidence(_, lane, token) =>
      token != "" && HoldsUnder(s, h, token) && s.permits[h].lane == lane && InLane(s, h, lane)
    case RotationStage(_, lane, previous, target) =>
      && lane == ScaleSet && target != "" && previous != Some("") && previous != Some(target)
      && h in s.permits && s.permits[h].lane == ScaleSet && s.permits[h].token != "" && InLane(s, h, ScaleSet)
      && (if s.permits[h].token == target then
            && s.permits[h].recoveryToken == previous
            && s.permits[h].recoveryClaim.Some? && s.permits[h].recoveryClaim.value != ""
            && s.permits[h].recoveryPid.Some? && s.permits[h].recoveryPid.value != 0
          else if previous.Some? then previous.value == s.permits[h].token
          else h in s.migrations && s.migrations[h] == s.permits[h].token)
    case ReleaseStage(_, lane, token, demand) =>
      && lane == ScaleSet && token != "" && demand != Granted && demand != Waiting
      && (if h in s.permits then s.permits[h].token == token && s.permits[h].lane == ScaleSet
          else h in s.demands && s.demands[h].lane == ScaleSet && s.demands[h].state == demand)
    case AcquireStage(_, lane, token) =>
      && lane == ScaleSet && token != ""
      && (h in s.permits ==> s.permits[h].token == token && s.permits[h].lane == ScaleSet)
  }

  lemma SoundMeansStands(s: Ledger, e: Evidence)
    ensures Sound(s, e) <==> Stands(s, e)
  {
  }

  /** One line of evidence, on any ledger, coherent or not: it is taken exactly if it stands and its holder
      was not named before; a live worker or a rotation then vouches for the demand of its row. */
  lemma LineAnswers(p: Progress, e: Evidence, now: nat)
    ensures TakeEvidence(p, e, now).Ok? <==> Stands(p.next, e) && e.holder !in p.seen
    ensures TakeEvidence(p, e, now).Ok? ==>
      var q := TakeEvidence(p, e, now).value;
      && q.seen == p.seen + {e.holder} && q.marked == p.marked
      && q.confirmed == (if e.holder in p.next.permits then p.confirmed + {e.holder} else p.confirmed)
      && (if e.LiveEvidence? || e.RotationStage? then OnlyVouched(p.next, q.next, e.holder, e.lane, now) else q.next == p.next)
    ensures e.ReleaseStage? && e.lane != ScaleSet ==> TakeEvidence(p, e, now) == Err(DemandLaneMismatch(e.holder, ScaleSet, e.lane))
  {
    SoundMeansStands(p.next, e);
    VouchingIsOnlyDemand(p.next, e.holder, e.lane, now);
  }

  /** One scanned row, on any ledger: unless it was named or is being cleaned up it becomes uncertain and
      vouches for its demand, which must be of its lane. */
  lemma ScanAnswers(p: Progress, h: Holder, now: nat)
    requires h in p.next.permits
    ensures var row := p.next.permits[h]; var r := MarkRow(p, h, now);
      if h in p.seen || row.state == Cleaning then r == Ok(p)
      else if !InLane(p.next, h, row.lane) then r == Err(DemandLaneMismatch(h, row.lane, p.next.demands[h].lane))
      else
        && r.Ok? && r.value.seen == p.seen && r.value.confirmed == p.confirmed && r.value.marked == p.marked + {h}
        && r.value.next.permits
           == p.next.permits[h := row.(state := Uncertain, updated := now, generation := p.next.generation)]
        && OnlyVouched(p.next, r.value.next.(permits := p.next.permits), h, row.lane, now)
  {
    VouchingIsOnlyDemand(p.next, h, p.next.permits[h].lane, now);
  }

  /** Reconciliation succeeds exactly if every line of evidence stands and no holder has two; the rows
      it then changes are exactly those no line names and no cleanup claim protects, which become
      uncertain, and the epoch is reconciled. */
  lemma ReconciliationAnswers(s: Ledger, evidence: seq<Evidence>, scan: seq<Holder>, now: nat)
    requires Coherent(s) && forall h :: h in s.permits ==> h in scan
    ensures var step := Reconcile(s, evidence, scan, now);
      && (step.reply.Ok? <==>
            && (forall i :: 0 <= i < |evidence| ==> Stands(s, evidence[i]))
            && (forall i, j :: 0 <= i < j < |evidence| ==> evidence[i].holder != evidence[j].holder))
      && (step.reply.Err? ==> step.next == s)
      && (step.reply.Ok? ==>
            && step.next == s.(permits := step.next.permits, reconciled := s.generation)
            && step.next.permits.Keys == s.permits.Keys
            && forall h :: h in s.permits ==>
                 step.next.permits[h] ==
                   if s.permits[h].state != Cleaning && (forall i :: 0 <= i < |evidence| ==> evidence[i].holder != h)
                   then s.permits[h].(state := Uncertain, updated := now, generation := s.generation)
                   else s.permits[h])
  {
    ReconcileOnCoherent(s, evidence, scan, now);
    forall i | 0 <= i < |evidence|
      ensures Sound(s, evidence[i]) <==> Stands(s, evidence[i])
    {
      SoundMeansStands(s, evidence[i]);
    }
    forall h
      ensures h in HoldersOf(evidence) <==> exists i :: 0 <= i < |evidence| && evidence[i].holder == h
    {
    }
  }
}
