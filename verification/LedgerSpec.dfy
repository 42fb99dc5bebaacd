/** What each ledger transaction does to the whole database, as a function of the state it
    starts from. A reply whose transaction is not committed leaves the state as it was. */
module LedgerSpec {
  import opened Common
  import opened LedgerTypes

  datatype Step<+R> = Step(next: Ledger, reply: R)

  // ---- Constraints the database enforces -------------------------------------------------

  ghost predicate SequencesUnique(demands: map<Holder, Demand>) {
    forall a, b :: a in demands && b in demands && a != b ==> demands[a].sequence != demands[b].sequence
  }

  ghost predicate TokensUnique(permits: map<Holder, Permit>) {
    forall a, b :: a in permits && b in permits && a != b ==> permits[a].token != permits[b].token
  }

  /** The two UNIQUE constraints of the schema. */
  ghost predicate Schema(s: Ledger) {
    SequencesUnique(s.demands) && TokensUnique(s.permits)
  }

  /** The unique index refuses `token` on the row of `holder`. */
  predicate TokenTaken(permits: map<Holder, Permit>, holder: Holder, token: Token) {
    exists k :: k in permits && k != holder && permits[k].token == token
  }

  // ---- The demand queue ------------------------------------------------------------------

  /** MAX(sequence), or 0 when the table is empty. */
  ghost function MaxSequence(demands: map<Holder, Demand>): nat
    decreases |demands|
  {
    if demands == map[] then 0
    else
      var h :| h in demands;
      var m := MaxSequence(demands - {h});
      if m < demands[h].sequence then demands[h].sequence else m
  }

  lemma {:induction false} MaxSequenceIsMax(demands: map<Holder, Demand>)
    ensures forall h :: h in demands ==> demands[h].sequence <= MaxSequence(demands)
    ensures MaxSequence(demands) == 0 || exists h :: h in demands && demands[h].sequence == MaxSequence(demands)
    decreases |demands|
  {
    if demands != map[] {
      var h :| h in demands && MaxSequence(demands)
        == var m := MaxSequence(demands - {h}); if m < demands[h].sequence then demands[h].sequence else m;
      var rest := demands - {h};
      assert forall k :: k in demands && k != h ==> k in rest;
      MaxSequenceIsMax(rest);
    }
  }

  ghost function NextSequence(demands: map<Holder, Demand>): nat {
    MaxSequence(demands) + 1
  }

  /** Queue order: first seen, then arrival sequence. */
  predicate TicketBefore(a: Demand, b: Demand) {
    a.firstSeen < b.firstSeen || (a.firstSeen == b.firstSeen && a.sequence < b.sequence)
  }

  function FreshAfter(now: nat): nat {
    if now < DEMAND_STALE_AFTER_SECS then 0 else now - DEMAND_STALE_AFTER_SECS
  }

  /** A demand that blocks younger demand in an admission decision taken at `now`. */
  predicate Contends(d: Demand, now: nat) {
    d.state.Eligible? && d.updated > FreshAfter(now)
  }

  predicate HasContender(demands: map<Holder, Demand>, now: nat) {
    exists h :: h in demands && Contends(demands[h], now)
  }

  /** `holder` is the row the oldest-first admission query returns at `now`. */
  ghost predicate IsHead(demands: map<Holder, Demand>, now: nat, holder: Holder) {
    && holder in demands
    && Contends(demands[holder], now)
    && forall k :: k in demands && k != holder && Contends(demands[k], now) ==> TicketBefore(demands[holder], demands[k])
  }

  predicate LaneClash(s: Ledger, holder: Holder, lane: Lane) {
    holder in s.demands && s.demands[holder].lane != lane
  }

  function LaneError(s: Ledger, holder: Holder, lane: Lane): LedgerError
    requires LaneClash(s, holder, lane)
  {
    DemandLaneMismatch(holder, lane, s.demands[holder].lane)
  }

  /** The existing row, or the one inserted at the tail of the queue. */
  ghost function DemandOrNew(
      s: Ledger, holder: Holder, lane: Lane, scope: string, firstSeen: nat, updated: nat, initial: DemandState): Demand
  {
    if holder in s.demands then s.demands[holder]
    else Demand(lane, scope, firstSeen, NextSequence(s.demands), initial, updated)
  }

  /** A permit row vouches for its demand: create it granted, promote it from eligible. */
  ghost function VouchedDemand(s: Ledger, holder: Holder, lane: Lane, now: nat): Demand {
    var d := DemandOrNew(s, holder, lane, "", now, now, Granted);
    if d.state.Eligible? then d.(state := Granted, updated := now) else d
  }

  function PutDemand(s: Ledger, holder: Holder, d: Demand): Ledger {
    s.(demands := s.demands[holder := d])
  }

  function PutPermit(s: Ledger, holder: Holder, p: Permit): Ledger {
    s.(permits := s.permits[holder := p])
  }

  function DropPermit(s: Ledger, holder: Holder): Ledger {
    s.(permits := s.permits - {holder})
  }

  lemma PutDemandTwice(s: Ledger, holder: Holder, d: Demand, e: Demand)
    ensures PutDemand(PutDemand(s, holder, d), holder, e) == PutDemand(s, holder, e)
  {
    assert s.demands[holder := d][holder := e] == s.demands[holder := e];
  }

  lemma InsertDemandKeepsSchema(s: Ledger, holder: Holder, d: Demand)
    requires Schema(s) && holder !in s.demands && d.sequence == NextSequence(s.demands)
    ensures Schema(PutDemand(s, holder, d))
  {
    MaxSequenceIsMax(s.demands);
  }

  lemma UpdateDemandKeepsSchema(s: Ledger, holder: Holder, d: Demand)
    requires Schema(s) && holder in s.demands && d.sequence == s.demands[holder].sequence
    ensures Schema(PutDemand(s, holder, d))
  {
  }

  lemma PutPermitKeepsSchema(s: Ledger, holder: Holder, p: Permit)
    requires Schema(s) && !TokenTaken(s.permits, holder, p.token)
    ensures Schema(PutPermit(s, holder, p))
  {
  }

  // ---- Epochs, capacity and the recovery claim -------------------------------------------

  function SetMaxJobs(s: Ledger, n: nat): Step<()> {
    Step(s.(maxJobs := Some(n)), ())
  }

  function SetMaxJobsIfUnset(s: Ledger, n: nat): Step<bool> {
    if s.maxJobs.None? then Step(s.(maxJobs := Some(n)), true) else Step(s, false)
  }

  function BeginEpoch(s: Ledger): Step<nat> {
    Step(s.(generation := s.generation + 1), s.generation + 1)
  }

  /** Free capacity, advertised only once this epoch has been reconciled. */
  function AdvertisedFree(s: Ledger): Option<nat> {
    if s.reconciled != s.generation || s.maxJobs.None? then None
    else if s.maxJobs.value < |s.permits| then Some(0)
    else Some(s.maxJobs.value - |s.permits|)
  }

  function ClaimRecovery(s: Ledger, pid: nat, alive: set<nat>, minted: Token): Step<Result<Token, LedgerError>> {
    match s.claim
    case None => Step(s.(claim := Some(Claim(minted, pid))), Ok(minted))
    case Some(c) =>
      if c.token == "" then Step(s, Err(StaleAttempt("Scale Set recovery claim token")))
      else if c.owner == 0 then Step(s, Err(StaleAttempt("Scale Set recovery claim owner pid")))
      else if c.owner in alive then Step(s, Err(RecoveryClaimed(c.owner)))
      else Step(s.(claim := Some(c.(owner := pid))), Ok(c.token))
  }

  function ReleaseClaim(s: Ledger, token: Token, pid: nat): Step<Result<(), LedgerError>> {
    if s.claim == Some(Claim(token, pid)) then Step(s.(claim := None), Ok(()))
    else Step(s, Err(StaleAttempt("Scale Set recovery claim")))
  }

  // ---- Demand ----------------------------------------------------------------------------

  ghost function ObserveDemand(
      s: Ledger, holder: Holder, lane: Lane, scope: string, firstSeen: nat, observed: nat)
      : Step<Result<Demand, LedgerError>>
  {
    var held := holder in s.permits;
    if held && s.permits[holder].lane != lane then
      Step(s, Err(DemandLaneMismatch(holder, lane, s.permits[holder].lane)))
    else if LaneClash(s, holder, lane) then Step(s, Err(LaneError(s, holder, lane)))
    else
      var d := DemandOrNew(s, holder, lane, scope, firstSeen, observed, if held then Granted else Eligible);
      var d' :=
        if d.state.Waiting? then d.(state := Eligible, updated := observed)
        else if d.state.Closed() then d
        else d.(updated := observed);
      Step(PutDemand(s, holder, d'), Ok(d'))
  }

  function ParkDemand(s: Ledger, holder: Holder, now: nat): Step<bool> {
    if holder in s.demands && s.demands[holder].state.Eligible? then
      Step(PutDemand(s, holder, s.demands[holder].(state := Waiting, updated := now)), true)
    else Step(s, false)
  }

  function CancelDemand(s: Ledger, holder: Holder, now: nat): Step<bool> {
    if holder in s.demands && holder !in s.permits
       && (s.demands[holder].state.Eligible? || s.demands[holder].state.Waiting?)
    then Step(PutDemand(s, holder, s.demands[holder].(state := Cancelled, updated := now)), true)
    else Step(s, false)
  }

  // ---- Acquisition -----------------------------------------------------------------------

  /** A demand that is not closed, made eligible and fresh at `now`. */
  ghost function Requeued(s: Ledger, holder: Holder, lane: Lane, now: nat): Demand {
    DemandOrNew(s, holder, lane, "", now, now, Eligible).(state := Eligible, updated := now)
  }

  function GrantedPermit(lane: Lane, state: PermitState, generation: nat, pid: Option<nat>, token: Token, now: nat): Permit {
    Permit(lane, state, now, now, generation, pid, token, None, None, None)
  }

  /** A held row is never changed by an acquire; only its exact staged replay is acknowledged. */
  function AcquireHeld(s: Ledger, holder: Holder, lane: Lane, state: PermitState, staged: Option<Token>)
      : Result<AcquireOutcome, LedgerError>
    requires holder in s.permits
  {
    var p := s.permits[holder];
    if p.lane != lane then Err(DemandLaneMismatch(holder, lane, p.lane))
    else if staged != Some(p.token) || p.state != state then Ok(AlreadyHeld)
    else if holder !in s.demands then Err(UnknownHolder(holder))
    else if s.demands[holder].lane != lane then Err(DemandLaneMismatch(holder, lane, s.demands[holder].lane))
    else if s.demands[holder].state.Granted? then Ok(Acquired(p.token))
    else Ok(AlreadyHeld)
  }

  /** Queue the demand, then grant it if capacity allows and nobody fresher is older. A failed
      lookup or a duplicate token rolls the queueing back as well. */
  ghost function Admit(
      s: Ledger, holder: Holder, d: Demand, state: PermitState, pid: Option<nat>, token: Token, now: nat)
      : Step<Result<AcquireOutcome, LedgerError>>
    requires s.maxJobs.Some?
  {
    var queued := PutDemand(s, holder, d);
    if |s.permits| >= s.maxJobs.value then Step(queued, Ok(Full))
    else if !HasContender(queued.demands, now) then Step(s, Err(Storage))
    else if !IsHead(queued.demands, now, holder) then Step(queued, Ok(Deferred))
    else if TokenTaken(s.permits, holder, token) then Step(s, Err(Storage))
    else
      Step(PutPermit(PutDemand(s, holder, d.(state := Granted)), holder,
                     GrantedPermit(d.lane, state, s.generation, pid, token, now)),
           Ok(Acquired(token)))
  }

  ghost function Acquire(
      s: Ledger, holder: Holder, lane: Lane, state: PermitState, generation: nat, pid: Option<nat>,
      staged: Option<Token>, minted: Token, now: nat)
      : Step<Result<AcquireOutcome, LedgerError>>
  {
    if s.generation != generation then Step(s, Ok(StaleGeneration))
    else if holder in s.permits then Step(s, AcquireHeld(s, holder, lane, state, staged))
    else if s.maxJobs.None? then Step(s, Ok(NotConfigured))
    else if LaneClash(s, holder, lane) then Step(s, Err(LaneError(s, holder, lane)))
    else if holder in s.demands && s.demands[holder].state.Closed() then Step(s, Ok(ClosedDemand))
    else
      Admit(s, holder, Requeued(s, holder, lane, now), state, pid, if staged.Some? then staged.value else minted, now)
  }

  /** Admission either grants to the head of the queue below capacity, or keeps every permit. */
  lemma AdmitEffect(s: Ledger, holder: Holder, d: Demand, state: PermitState, pid: Option<nat>, token: Token, now: nat)
    requires s.maxJobs.Some?
    ensures var step := Admit(s, holder, d, state, pid, token, now);
      if step.reply == Ok(Acquired(token)) then
        && |s.permits| < s.maxJobs.value && !TokenTaken(s.permits, holder, token)
        && IsHead(s.demands[holder := d], now, holder)
        && step.next == s.(permits := s.permits[holder := GrantedPermit(d.lane, state, s.generation, pid, token, now)],
                           demands := s.demands[holder := d.(state := Granted)])
      else step.next == s || step.next == PutDemand(s, holder, d)
  {
  }

  lemma AcquireEffect(
      s: Ledger, holder: Holder, lane: Lane, state: PermitState, generation: nat, pid: Option<nat>,
      staged: Option<Token>, minted: Token, now: nat)
    ensures var step := Acquire(s, holder, lane, state, generation, pid, staged, minted, now);
      var token := if staged.Some? then staged.value else minted; var d := Requeued(s, holder, lane, now);
      if holder !in s.permits && step.reply == Ok(Acquired(token)) then
        && s.maxJobs.Some? && |s.permits| < s.maxJobs.value && !TokenTaken(s.permits, holder, token)
        && !(holder in s.demands && s.demands[holder].state.Closed())
        && IsHead(s.demands[holder := d], now, holder)
        && step.next == s.(permits := s.permits[holder := GrantedPermit(lane, state, generation, pid, token, now)],
                           demands := s.demands[holder := d.(state := Granted)])
      else step.next == s || step.next == PutDemand(s, holder, d)
  {
    if s.maxJobs.Some? {
      AdmitEffect(s, holder, Requeued(s, holder, lane, now), state, pid, if staged.Some? then staged.value else minted, now);
    }
  }

  ghost function AcquireStaged(
      s: Ledger, holder: Holder, state: PermitState, generation: nat, pid: Option<nat>, token: Token, now: nat)
      : Step<Result<AcquireOutcome, LedgerError>>
  {
    if token == "" then Step(s, Err(StaleAttempt(holder)))
    else Acquire(s, holder, ScaleSet, state, generation, pid, Some(token), "", now)
  }

  // ---- Taking over a row -----------------------------------------------------------------

  /** This process dropped its own attempt and left it uncertain behind terminal demand. */
  predicate SameProcessRetained(s: Ledger, holder: Holder, lane: Lane, pid: nat)
    requires holder in s.permits
  {
    && lane == Native
    && s.permits[holder].pid == Some(pid)
    && s.permits[holder].state == Uncertain
    && holder in s.demands && s.demands[holder].state == Terminal
  }

  ghost function AdoptForRedelivery(
      s: Ledger, holder: Holder, lane: Lane, state: PermitState, generation: nat, pid: nat,
      alive: set<nat>, minted: Token, now: nat)
      : Step<Result<AdoptOutcome, LedgerError>>
  {
    if s.generation != generation then Step(s, Ok(AdoptStaleGeneration))
    else if holder !in s.permits then Step(s, Ok(AdoptMissing))
    else
      var p := s.permits[holder];
      if p.lane != lane || p.pid.None? then Step(s, Ok(LiveHolder))
      else if p.pid.value in alive && !SameProcessRetained(s, holder, lane, pid) then Step(s, Ok(LiveHolder))
      else if TokenTaken(s.permits, holder, minted) then Step(s, Err(Storage))
      else if LaneClash(s, holder, lane) then Step(s, Err(LaneError(s, holder, lane)))
      else
        var p' := p.(state := state, updated := now, generation := generation, pid := Some(pid), token := minted,
                     recoveryClaim := None, recoveryPid := None, recoveryToken := None);
        Step(PutPermit(PutDemand(s, holder, VouchedDemand(s, holder, lane, now)), holder, p'), Ok(Adopted(minted)))
  }

  /** The stage a recovery process persisted before it rotates a dead worker's token. */
  datatype Rotation = Rotation(
    holder: Holder, state: PermitState, generation: nat, previousPid: nat, previous: Option<Token>,
    target: Token, claim: Token)

  predicate RotationMalformed(r: Rotation) {
    || r.target == "" || r.claim == "" || r.previousPid == 0
    || r.previous == Some("") || r.previous == Some(r.target)
  }

  /** `None` stands for the token the one-time legacy migration recorded. */
  predicate PreviousTokenMatches(s: Ledger, holder: Holder, previous: Option<Token>, current: Token) {
    match previous
    case Some(t) => t == current
    case None => holder in s.migrations && s.migrations[holder] == current
  }

  /** The row carries the proof that exactly this rotation committed. */
  predicate RotationCommitted(p: Permit, r: Rotation) {
    && p.token == r.target
    && p.recoveryClaim == Some(r.claim)
    && p.recoveryPid == Some(r.previousPid)
    && p.recoveryToken == r.previous
    && p.generation == r.generation
  }

  function RotatedPermit(p: Permit, r: Rotation, pid: nat, now: nat): Permit {
    p.(state := r.state, updated := now, generation := r.generation, pid := Some(pid), token := r.target,
       recoveryClaim := Some(r.claim), recoveryPid := Some(r.previousPid), recoveryToken := r.previous)
  }

  ghost function RotateForRecovery(s: Ledger, r: Rotation, pid: nat, now: nat): Step<Result<RotationOutcome, LedgerError>> {
    if RotationMalformed(r) || s.claim != Some(Claim(r.claim, pid)) then Step(s, Ok(RotationStaleAttempt))
    else if r.holder !in s.permits then Step(s, Ok(RotationMissing))
    else
      var p := s.permits[r.holder];
      if p.lane != ScaleSet then Step(s, Err(DemandLaneMismatch(r.holder, ScaleSet, p.lane)))
      else if p.token == r.target then
        Step(s, Ok(if s.generation < r.generation then RotationStaleGeneration
                   else if RotationCommitted(p, r) then AlreadyRotated
                   else RotationStaleAttempt))
      else if s.generation != r.generation then Step(s, Ok(RotationStaleGeneration))
      else if p.token == "" || p.pid != Some(r.previousPid) || !PreviousTokenMatches(s, r.holder, r.previous, p.token) then
        Step(s, Ok(RotationStaleAttempt))
      else if TokenTaken(s.permits, r.holder, r.target) then Step(s, Err(Storage))
      else if LaneClash(s, r.holder, ScaleSet) then Step(s, Err(LaneError(s, r.holder, ScaleSet)))
      else
        Step(PutPermit(PutDemand(s, r.holder, VouchedDemand(s, r.holder, ScaleSet, now)), r.holder,
                       RotatedPermit(p, r, pid, now)),
             Ok(Rotated))
  }

  // ---- Token-fenced changes of a held row ------------------------------------------------

  predicate Owns(s: Ledger, holder: Holder, token: Token) {
    holder in s.permits && s.permits[holder].token == token
  }

  function NotOwnerError(s: Ledger, holder: Holder): LedgerError {
    if holder in s.permits || holder in s.demands then StaleAttempt(holder) else UnknownHolder(holder)
  }

  function TransitionOwned(s: Ledger, holder: Holder, state: PermitState, generation: nat, token: Token, pid: nat, now: nat)
      : Step<Result<(), LedgerError>>
  {
    if s.generation != generation then Step(s, Err(StaleGenerationError(s.generation, generation)))
    else if !Owns(s, holder, token) then Step(s, Err(NotOwnerError(s, holder)))
    else if s.permits[holder].state.Cleaning? then Step(s, Ok(()))
    else
      Step(PutPermit(s, holder, s.permits[holder].(state := state, updated := now, generation := generation, pid := Some(pid))),
           Ok(()))
  }

  ghost function ClaimTerminalCleanup(s: Ledger, holder: Holder, lane: Lane, token: Token, pid: nat, now: nat)
      : Step<Result<CleanupClaimOutcome, LedgerError>>
  {
    if token == "" then Step(s, Ok(CleanupStaleAttempt))
    else if holder in s.permits && s.permits[holder].lane != lane then
      Step(s, Err(DemandLaneMismatch(holder, lane, s.permits[holder].lane)))
    else if LaneClash(s, holder, lane) then Step(s, Err(LaneError(s, holder, lane)))
    else if holder in s.permits then
      var p := s.permits[holder];
      if p.token != token then Step(s, Ok(CleanupStaleAttempt))
      else
        Step(PutPermit(s, holder, p.(state := Cleaning, updated := now, generation := s.generation, pid := Some(pid))),
             Ok(Claimed))
    else if holder in s.demands && s.demands[holder].state.Closed() then
      Step(if lane == Native && s.demands[holder].state.Cancelled? then s.(releases := s.releases + {(holder, token)}) else s,
           Ok(ClosedAbsent))
    else
      var d := DemandOrNew(s, holder, lane, "", now, now, Terminal);
      Step(PutDemand(s, holder, d.(state := Terminal, updated := now)), Ok(DemandClosed))
  }

  /** Demand after a release: closing is unconditional, requeueing never revives closed work. */
  function AfterRelease(d: Demand, target: DemandState, now: nat): Demand {
    match target
    case Terminal => d.(state := Terminal, updated := now)
    case Cancelled => d.(state := Cancelled, updated := now)
    case Eligible => if d.state.Eligible? || d.state.Granted? then d.(state := Eligible, updated := now) else d
    case Granted => d
    case Waiting => d
  }

  function ReleaseOwned(s: Ledger, holder: Holder, target: DemandState, token: Token, now: nat): Step<bool> {
    if !Owns(s, holder, token) then Step(s, false)
    else
      var freed := DropPermit(s, holder);
      Step(if holder in s.demands then PutDemand(freed, holder, AfterRelease(s.demands[holder], target, now)) else freed,
           true)
  }

  ghost function ReleaseNative(s: Ledger, holder: Holder, token: Token, target: ClosedTarget, now: nat)
      : Step<Result<OwnedReleaseOutcome, LedgerError>>
  {
    var acknowledged := s.(releases := s.releases - {(holder, token)});
    if holder !in s.permits then
      if holder !in s.demands then Step(acknowledged, Ok(ReleaseStaleAttempt))
      else if s.demands[holder].lane != Native then Step(s, Err(LaneError(s, holder, Native)))
      else
        var done := s.demands[holder].state == target
          || (target.Terminal? && s.demands[holder].state.Cancelled? && (holder, token) in s.releases);
        Step(acknowledged, Ok(if done then AlreadyAbsent else ReleaseStaleAttempt))
    else if s.permits[holder].lane != Native then
      Step(s, Err(DemandLaneMismatch(holder, Native, s.permits[holder].lane)))
    else if s.permits[holder].token != token then Step(acknowledged, Ok(ReleaseStaleAttempt))
    else if LaneClash(s, holder, Native) then Step(s, Err(LaneError(s, holder, Native)))
    else
      var d := DemandOrNew(s, holder, Native, "", now, now, target);
      Step(PutDemand(DropPermit(acknowledged, holder), holder, d.(state := target, updated := now)), Ok(Released))
  }

  function ReleaseScaleSet(s: Ledger, holder: Holder, token: Token, target: DemandState, now: nat)
      : Step<Result<OwnedReleaseOutcome, LedgerError>>
  {
    if token == "" || target.Granted? || target.Waiting? then Step(s, Ok(ReleaseStaleAttempt))
    else if holder !in s.permits then
      if holder !in s.demands then Step(s, Ok(ReleaseStaleAttempt))
      else if s.demands[holder].lane != ScaleSet then
        Step(s, Err(DemandLaneMismatch(holder, ScaleSet, s.demands[holder].lane)))
      else Step(s, Ok(if s.demands[holder].state == target then AlreadyAbsent else ReleaseStaleAttempt))
    else if s.permits[holder].lane != ScaleSet then
      Step(s, Err(DemandLaneMismatch(holder, ScaleSet, s.permits[holder].lane)))
    else if s.permits[holder].token != token then Step(s, Ok(ReleaseStaleAttempt))
    else if holder !in s.demands then Step(s, Err(UnknownHolder(holder)))
    else if s.demands[holder].lane != ScaleSet then
      Step(s, Err(DemandLaneMismatch(holder, ScaleSet, s.demands[holder].lane)))
    else if target.Eligible? && !s.demands[holder].state.Eligible? && !s.demands[holder].state.Granted? then
      Step(s, Ok(ReleaseStaleAttempt))
    else
      Step(PutDemand(DropPermit(s, holder), holder, s.demands[holder].(state := target, updated := now)), Ok(Released))
  }

  /** Uncertain work closes its open demand but keeps its permit counted. */
  function RetainRow(s: Ledger, holder: Holder, generation: nat, now: nat): Ledger
    requires holder in s.permits
  {
    var kept := PutPermit(s, holder, s.permits[holder].(state := Uncertain, updated := now, generation := generation));
    if holder in s.demands && (s.demands[holder].state.Eligible? || s.demands[holder].state.Granted?) then
      PutDemand(kept, holder, s.demands[holder].(state := Terminal, updated := now))
    else kept
  }

  function RetainUncertain(s: Ledger, holder: Holder, generation: nat, token: Token, now: nat)
      : Step<Result<(), LedgerError>>
  {
    if s.generation != generation then Step(s, Err(StaleGenerationError(s.generation, generation)))
    else if !Owns(s, holder, token) then Step(s, Err(NotOwnerError(s, holder)))
    else if s.permits[holder].state.Cleaning? then Step(s, Ok(()))
    else Step(RetainRow(s, holder, generation, now), Ok(()))
  }

  function RetainRecordedFailure(s: Ledger, holder: Holder, generation: nat, token: Token, now: nat)
      : Step<Result<(), LedgerError>>
  {
    if s.generation != generation then Step(s, Err(StaleGenerationError(s.generation, generation)))
    else if !Owns(s, holder, token) then Step(s, Err(NotOwnerError(s, holder)))
    else Step(RetainRow(s, holder, generation, now), Ok(()))
  }

  ghost function RetainAfterCleanup(s: Ledger, holder: Holder, token: Token, pid: nat, now: nat)
      : Step<Result<(), LedgerError>>
  {
    if token == "" || holder !in s.permits then Step(s, Err(StaleAttempt(holder)))
    else if s.permits[holder].lane != Native then
      Step(s, Err(DemandLaneMismatch(holder, Native, s.permits[holder].lane)))
    else if s.permits[holder].token != token then Step(s, Err(StaleAttempt(holder)))
    else if LaneClash(s, holder, Native) then Step(s, Err(LaneError(s, holder, Native)))
    else
      var p := s.permits[holder].(state := Uncertain, updated := now, generation := s.generation, pid := Some(pid));
      var d := DemandOrNew(s, holder, Native, "", now, now, Granted);
      var d' := if d.state.Cancelled? then d else d.(state := Terminal, updated := now);
      Step(PutDemand(PutPermit(s, holder, p), holder, d'), Ok(()))
  }

  // ---- Reconciliation --------------------------------------------------------------------

  /** What is wrong with a line of evidence before any row is looked at. */
  function Malformed(e: Evidence): Option<LedgerError> {
    match e
    case LiveEvidence(h, _, token) => if token == "" then Some(StaleAttempt(h)) else None
    case RotationStage(h, lane, previous, target) =>
      if lane != ScaleSet || target == "" || previous == Some("") || previous == Some(target) then Some(StaleAttempt(h))
      else None
    case ReleaseStage(h, lane, token, demand) =>
      if lane != ScaleSet then Some(DemandLaneMismatch(h, ScaleSet, lane))
      else if demand.Granted? || demand.Waiting? || token == "" then Some(StaleAttempt(h))
      else None
    case AcquireStage(h, lane, token) =>
      if lane != ScaleSet || token == "" then Some(StaleAttempt(h)) else None
  }

  /** The row carries this stage's token before the rotation, or its proof after it. */
  predicate RotationEvidenceMatches(s: Ledger, p: Permit, e: Evidence)
    requires e.RotationStage?
  {
    if e.previous == Some(p.token) then true
    else if p.token == e.target then
      && p.recoveryClaim.Some? && p.recoveryClaim.value != ""
      && p.recoveryPid.Some? && p.recoveryPid.value > 0
      && p.recoveryToken == e.previous
    else e.previous.None? && e.holder in s.migrations && s.migrations[e.holder] == p.token
  }

  /** Why a well-formed line contradicts the rows of its holder, if it does. */
  function Contradiction(s: Ledger, e: Evidence): Option<LedgerError> {
    var h := e.holder;
    if h !in s.permits then
      match e
      case LiveEvidence(_, _, _) => Some(StaleAttempt(h))
      case RotationStage(_, _, _, _) => Some(StaleAttempt(h))
      case ReleaseStage(_, lane, _, demand) =>
        if h !in s.demands then Some(StaleAttempt(h))
        else if s.demands[h].lane != lane then Some(DemandLaneMismatch(h, lane, s.demands[h].lane))
        else if s.demands[h].state != demand then Some(StaleAttempt(h))
        else None
      case AcquireStage(_, _, _) => None
    else
      var p := s.permits[h];
      if p.lane != e.lane then Some(DemandLaneMismatch(h, e.lane, p.lane))
      else if (match e case RotationStage(_, _, _, _) => p.token == "" || !RotationEvidenceMatches(s, p, e)
                       case _ => p.token != e.token)
      then Some(StaleAttempt(h))
      else if (e.LiveEvidence? || e.RotationStage?) && h in s.demands && s.demands[h].lane != e.lane then
        Some(DemandLaneMismatch(h, e.lane, s.demands[h].lane))
      else None
  }

  /** What the reconciling transaction has seen and changed so far. */
  datatype Progress = Progress(seen: set<Holder>, next: Ledger, confirmed: set<Holder>, marked: set<Holder>)

  ghost function TakeEvidence(p: Progress, e: Evidence, now: nat): Result<Progress, LedgerError> {
    var h := e.holder;
    if Malformed(e).Some? then Err(Malformed(e).value)
    else if h in p.seen then Err(StaleAttempt(h))
    else if Contradiction(p.next, e).Some? then Err(Contradiction(p.next, e).value)
    else
      var held := h in p.next.permits;
      Ok(Progress(p.seen + {h},
                  if e.LiveEvidence? || e.RotationStage? then PutDemand(p.next, h, VouchedDemand(p.next, h, e.lane, now)) else p.next,
                  if held then p.confirmed + {h} else p.confirmed,
                  p.marked))
  }

  ghost function TakeAll(p: Progress, evidence: seq<Evidence>, now: nat): Result<Progress, LedgerError>
    decreases |evidence|
  {
    if evidence == [] then Ok(p)
    else
      match TakeEvidence(p, evidence[0], now)
      case Ok(q) => TakeAll(q, evidence[1..], now)
      case Err(error) => Err(error)
  }

  /** One recorded row that no evidence named: uncertain, unless a cleanup claim protects it. */
  ghost function MarkRow(p: Progress, h: Holder, now: nat): Result<Progress, LedgerError> {
    if h in p.seen || h !in p.next.permits || p.next.permits[h].state.Cleaning? then Ok(p)
    else
      var row := p.next.permits[h];
      if LaneClash(p.next, h, row.lane) then Err(LaneError(p.next, h, row.lane))
      else
        var next := PutPermit(p.next, h, row.(state := Uncertain, updated := now, generation := p.next.generation));
        Ok(p.(next := PutDemand(next, h, VouchedDemand(p.next, h, row.lane, now)), marked := p.marked + {h}))
  }

  ghost function MarkAll(p: Progress, scan: seq<Holder>, now: nat): Result<Progress, LedgerError>
    decreases |scan|
  {
    if scan == [] then Ok(p)
    else
      match MarkRow(p, scan[0], now)
      case Ok(q) => MarkAll(q, scan[1..], now)
      case Err(error) => Err(error)
  }

  /** `scan` is the order in which the database lists the permit rows. */
  ghost function Reconcile(s: Ledger, evidence: seq<Evidence>, scan: seq<Holder>, now: nat)
      : Step<Result<ReconcileReport, LedgerError>>
  {
    match TakeAll(Progress({}, s, {}, {}), evidence, now)
    case Err(error) => Step(s, Err(error))
    case Ok(taken) =>
      match MarkAll(taken, scan, now)
      case Err(error) => Step(s, Err(error))
      case Ok(done) =>
        Step(done.next.(reconciled := s.generation), Ok(ReconcileReport(done.marked, done.confirmed)))
  }
}
