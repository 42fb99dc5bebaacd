/** The ledger object. Each public method is one immediate transaction: it works on a copy of the
    tables and either commits the copy or returns, which rolls back. */
module PermitLedgerClass {
  import opened Common
  import opened LedgerTypes
  import opened LedgerSpec
  import opened LedgerTables
  import opened LedgerRuns
  import opened LedgerCapacity

  class PermitLedger {
    var maxJobs: Option<nat>
    var generation: nat
    var reconciled: int
    var permits: map<Holder, Permit>
    var demands: map<Holder, Demand>
    var migrations: map<Holder, Token>
    var claim: Option<Claim>
    var releases: set<(Holder, Token)>

    function State(): Ledger
      reads this
    {
      Ledger(maxJobs, generation, reconciled, permits, demands, migrations, claim, releases)
    }

    /** The schema's UNIQUE constraints. */
    ghost predicate Valid()
      reads this
    {
      Schema(State())
    }

    constructor ()
      ensures State() == EMPTY_LEDGER && Valid()
    {
      maxJobs, generation, reconciled := None, 0, -1;
      permits, demands, migrations, claim, releases := map[], map[], map[], None, {};
    }

    method Commit(tx: Ledger)
      modifies this
      ensures State() == tx
    {
      maxJobs, generation, reconciled := tx.maxJobs, tx.generation, tx.reconciled;
      permits, demands, migrations, claim, releases := tx.permits, tx.demands, tx.migrations, tx.claim, tx.releases;
    }

    method SetMaxJobs(n: nat)
      requires Valid()
      modifies this
      ensures Valid() && State() == LedgerSpec.SetMaxJobs(old(State()), n).next
      ensures Preserves(old(State()), State())
    {
      StepPreserves(State(), OpSetMaxJobs(n));
      maxJobs := Some(n);
    }

    method SetMaxJobsIfUnset(n: nat) returns (adopted: bool)
      requires Valid()
      modifies this
      ensures Valid() && Step(State(), adopted) == LedgerSpec.SetMaxJobsIfUnset(old(State()), n)
      ensures Preserves(old(State()), State())
    {
      StepPreserves(State(), OpSetMaxJobsIfUnset(n));
      adopted := maxJobs.None?;
      if adopted {
        maxJobs := Some(n);
      }
    }

    method BeginEpoch() returns (g: nat)
      requires Valid()
      modifies this
      ensures Valid() && Step(State(), g) == LedgerSpec.BeginEpoch(old(State()))
      ensures Preserves(old(State()), State())
    {
      StepPreserves(State(), OpBeginEpoch);
      generation := generation + 1;
      g := generation;
    }

    /** N minus occupancy, or nothing until this epoch has been reconciled. */
    method AdvertisedFree() returns (free: Option<nat>)
      ensures free == LedgerSpec.AdvertisedFree(State())
    {
      if generation != reconciled {
        return None;
      }
      match maxJobs
      case None => return None;
      case Some(n) => return Some(if n < |permits| then 0 else n - |permits|);
    }

    method ClaimRecovery(pid: nat, alive: set<nat>, minted: Token) returns (r: Result<Token, LedgerError>)
      requires Valid()
      modifies this
      ensures Valid() && Step(State(), r) == LedgerSpec.ClaimRecovery(old(State()), pid, alive, minted)
      ensures Preserves(old(State()), State())
    {
      StepPreserves(State(), OpClaimRecovery(pid, alive, minted));
      if claim.None? {
        claim := Some(Claim(minted, pid));
        return Ok(minted);
      }
      var token, owner := claim.value.token, claim.value.owner;
      if token == "" {
        return Err(StaleAttempt("Scale Set recovery claim token"));
      }
      if owner == 0 {
        return Err(StaleAttempt("Scale Set recovery claim owner pid"));
      }
      if owner in alive {
        return Err(RecoveryClaimed(owner));
      }
      claim := Some(Claim(token, pid));
      r := Ok(token);
    }

    method ReleaseClaim(token: Token, pid: nat) returns (r: Result<(), LedgerError>)
      requires Valid()
      modifies this
      ensures Valid() && Step(State(), r) == LedgerSpec.ReleaseClaim(old(State()), token, pid)
      ensures Preserves(old(State()), State())
    {
      StepPreserves(State(), OpReleaseClaim(token, pid));
      if claim != Some(Claim(token, pid)) {
        return Err(StaleAttempt("Scale Set recovery claim"));
      }
      claim := None;
      r := Ok(());
    }

    method ObserveDemand(holder: Holder, lane: Lane, scope: string, firstSeen: nat, observed: nat)
      returns (r: Result<Demand, LedgerError>)
      requires Valid()
      modifies this
      ensures Valid() && Step(State(), r) == LedgerSpec.ObserveDemand(old(State()), holder, lane, scope, firstSeen, observed)
      ensures Preserves(old(State()), State())
    {
      StepPreserves(State(), OpObserve(holder, lane, scope, firstSeen, observed));
      var tx := State();
      if holder in tx.permits && tx.permits[holder].lane != lane {
        return Err(DemandLaneMismatch(holder, lane, tx.permits[holder].lane));
      }
      var initial := if holder in tx.permits then Granted else Eligible;
      r, tx := EnsureDemand(tx, holder, lane, scope, firstSeen, observed, initial);
      if r.Err? {
        return;
      }
      var d := r.value;
      if d.state == Waiting {
        d := d.(state := Eligible, updated := observed);
      } else if d.state == Eligible || d.state == Granted {
        d := d.(updated := observed);
      }
      UpdateDemandKeepsSchema(tx, holder, d);
      PutDemandTwice(old(State()), holder, r.value, d);
      Commit(PutDemand(tx, holder, d));
      r := Ok(d);
    }

    method ParkDemand(holder: Holder, now: nat) returns (changed: bool)
      requires Valid()
      modifies this
      ensures Valid() && Step(State(), changed) == LedgerSpec.ParkDemand(old(State()), holder, now)
      ensures Preserves(old(State()), State())
    {
      StepPreserves(State(), OpPark(holder, now));
      changed := holder in demands && demands[holder].state == Eligible;
      if changed {
        demands := demands[holder := demands[holder].(state := Waiting, updated := now)];
      }
    }

    method CancelDemand(holder: Holder, now: nat) returns (changed: bool)
      requires Valid()
      modifies this
      ensures Valid() && Step(State(), changed) == LedgerSpec.CancelDemand(old(State()), holder, now)
      ensures Preserves(old(State()), State())
    {
      StepPreserves(State(), OpCancel(holder, now));
      changed := holder in demands && demands[holder].state in {Eligible, Waiting} && holder !in permits;
      if changed {
        demands := demands[holder := demands[holder].(state := Cancelled, updated := now)];
      }
    }

    method Acquire(
        holder: Holder, lane: Lane, state: PermitState, g: nat, pid: Option<nat>, staged: Option<Token>,
        minted: Token, now: nat)
        returns (r: Result<AcquireOutcome, LedgerError>)
      requires Valid()
      modifies this
      ensures Valid() && Step(State(), r) == LedgerSpec.Acquire(old(State()), holder, lane, state, g, pid, staged, minted, now)
      ensures Preserves(old(State()), State())
      ensures AddsHolder(old(State()), Step(State(), r), holder, if staged.Some? then staged.value else minted)
    {
      AcquirePreserves(State(), holder, lane, state, g, pid, staged, minted, now);
      AcquireAddsHolder(State(), holder, lane, state, g, pid, staged, minted, now);
      var tx;
      r, tx := AcquireRow(State(), holder, lane, state, g, pid, staged, minted, now);
      Commit(tx);
    }

    method AcquireStaged(
        holder: Holder, state: PermitState, g: nat, pid: Option<nat>, token: Token, now: nat)
        returns (r: Result<AcquireOutcome, LedgerError>)
      requires Valid()
      modifies this
      ensures Valid() && Step(State(), r) == LedgerSpec.AcquireStaged(old(State()), holder, state, g, pid, token, now)
      ensures Preserves(old(State()), State())
      ensures AddsHolder(old(State()), Step(State(), r), holder, token)
    {
      AcquireStagedAddsHolder(State(), holder, state, g, pid, token, now);
      StepPreserves(State(), OpAcquireStaged(holder, state, g, pid, token, now));
      if token == "" {
        return Err(StaleAttempt(holder));
      }
      r := Acquire(holder, ScaleSet, state, g, pid, Some(token), "", now);
    }

    method AdoptForRedelivery(
        holder: Holder, lane: Lane, state: PermitState, g: nat, pid: nat, alive: set<nat>, minted: Token, now: nat)
        returns (r: Result<AdoptOutcome, LedgerError>)
      requires Valid()
      modifies this
      ensures Valid()
      ensures Step(State(), r) == LedgerSpec.AdoptForRedelivery(old(State()), holder, lane, state, g, pid, alive, minted, now)
      ensures Preserves(old(State()), State())
    {
      StepPreserves(State(), OpAdopt(holder, lane, state, g, pid, alive, minted, now));
      var tx := State();
      if tx.generation != g {
        return Ok(AdoptStaleGeneration);
      }
      if holder !in tx.permits {
        return Ok(AdoptMissing);
      }
      var row := tx.permits[holder];
      if row.lane != lane || row.pid.None? {
        return Ok(LiveHolder);
      }
      var retained := lane == Native && row.pid.value == pid && row.state == Uncertain
        && holder in tx.demands && tx.demands[holder].state == Terminal;
      if row.pid.value in alive && !retained {
        return Ok(LiveHolder);
      }
      if TokenTaken(tx.permits, holder, minted) {
        return Err(Storage);
      }
      var adopted := row.(state := state, updated := now, generation := g, pid := Some(pid), token := minted,
                          recoveryClaim := None, recoveryPid := None, recoveryToken := None);
      PutPermitKeepsSchema(tx, holder, adopted);
      var error;
      error, tx := VouchDemand(PutPermit(tx, holder, adopted), holder, lane, now);
      if error.Some? {
        return Err(error.value);
      }
      Commit(tx);
      r := Ok(Adopted(minted));
    }

    method RotateForRecovery(r: Rotation, pid: nat, now: nat) returns (reply: Result<RotationOutcome, LedgerError>)
      requires Valid()
      modifies this
      ensures Valid() && Step(State(), reply) == LedgerSpec.RotateForRecovery(old(State()), r, pid, now)
      ensures Preserves(old(State()), State())
    {
      StepPreserves(State(), OpRotate(r, pid, now));
      var tx := State();
      if r.target == "" || r.claim == "" || r.previousPid == 0 || r.previous == Some("") || r.previous == Some(r.target) {
        return Ok(RotationStaleAttempt);
      }
      if tx.claim.None? || tx.claim.value.token != r.claim || tx.claim.value.owner != pid {
        return Ok(RotationStaleAttempt);
      }
      if r.holder !in tx.permits {
        return Ok(RotationMissing);
      }
      var row := tx.permits[r.holder];
      if row.lane != ScaleSet {
        return Err(DemandLaneMismatch(r.holder, ScaleSet, row.lane));
      }
      if row.token == r.target {
        if tx.generation < r.generation {
          return Ok(RotationStaleGeneration);
        }
        var proven := row.recoveryClaim == Some(r.claim) && row.recoveryPid == Some(r.previousPid)
          && row.recoveryToken == r.previous && row.generation == r.generation;
        return Ok(if proven then AlreadyRotated else RotationStaleAttempt);
      }
      if tx.generation != r.generation {
        return Ok(RotationStaleGeneration);
      }
      if row.token == "" || row.pid != Some(r.previousPid) || !PreviousTokenMatches(tx, r.holder, r.previous, row.token) {
        return Ok(RotationStaleAttempt);
      }
      if TokenTaken(tx.permits, r.holder, r.target) {
        return Err(Storage);
      }
      var rotated := row.(state := r.state, updated := now, generation := r.generation, pid := Some(pid), token := r.target,
                          recoveryClaim := Some(r.claim), recoveryPid := Some(r.previousPid), recoveryToken := r.previous);
      PutPermitKeepsSchema(tx, r.holder, rotated);
      var error;
      error, tx := VouchDemand(PutPermit(tx, r.holder, rotated), r.holder, ScaleSet, now);
      if error.Some? {
        return Err(error.value);
      }
      Commit(tx);
      reply := Ok(Rotated);
    }

    method TransitionOwned(holder: Holder, state: PermitState, g: nat, token: Token, pid: nat, now: nat)
      returns (r: Result<(), LedgerError>)
      requires Valid()
      modifies this
      ensures Valid() && Step(State(), r) == LedgerSpec.TransitionOwned(old(State()), holder, state, g, token, pid, now)
      ensures Preserves(old(State()), State())
    {
      StepPreserves(State(), OpTransition(holder, state, g, token, pid, now));
      var tx := State();
      if tx.generation != g {
        return Err(StaleGenerationError(tx.generation, g));
      }
      var owned := ReadOwnedState(tx, holder, token);
      if owned.Err? {
        return Err(owned.error);
      }
      if owned.value == Cleaning {
        return Ok(());
      }
      var p := tx.permits[holder].(state := state, updated := now, generation := g, pid := Some(pid));
      PutPermitKeepsSchema(tx, holder, p);
      Commit(PutPermit(tx, holder, p));
      r := Ok(());
    }

    method ClaimTerminalCleanup(holder: Holder, lane: Lane, token: Token, pid: nat, now: nat)
      returns (r: Result<CleanupClaimOutcome, LedgerError>)
      requires Valid()
      modifies this
      ensures Valid() && Step(State(), r) == LedgerSpec.ClaimTerminalCleanup(old(State()), holder, lane, token, pid, now)
      ensures Preserves(old(State()), State())
    {
      StepPreserves(State(), OpClaimCleanup(holder, lane, token, pid, now));
      if token == "" {
        return Ok(CleanupStaleAttempt);
      }
      var tx := State();
      if holder in tx.permits {
        var row := tx.permits[holder];
        if row.lane != lane {
          return Err(DemandLaneMismatch(holder, lane, row.lane));
        }
        if holder in tx.demands && tx.demands[holder].lane != lane {
          return Err(DemandLaneMismatch(holder, lane, tx.demands[holder].lane));
        }
        if row.token != token {
          return Ok(CleanupStaleAttempt);
        }
        var p := row.(state := Cleaning, updated := now, generation := tx.generation, pid := Some(pid));
        PutPermitKeepsSchema(tx, holder, p);
        Commit(PutPermit(tx, holder, p));
        return Ok(Claimed);
      }
      var wasClosed := false;
      if holder in tx.demands {
        if tx.demands[holder].lane != lane {
          return Err(DemandLaneMismatch(holder, lane, tx.demands[holder].lane));
        }
        wasClosed := tx.demands[holder].state == Terminal || tx.demands[holder].state == Cancelled;
      }
      if lane == Native && wasClosed && tx.demands[holder].state == Cancelled {
        tx := tx.(releases := tx.releases + {(holder, token)});
      }
      if !wasClosed {
        var ensured;
        ensured, tx := EnsureDemand(tx, holder, lane, "", now, now, Terminal);
        var d := ensured.value.(state := Terminal, updated := now);
        UpdateDemandKeepsSchema(tx, holder, d);
        PutDemandTwice(old(State()), holder, ensured.value, d);
        tx := PutDemand(tx, holder, d);
      }
      Commit(tx);
      r := Ok(if wasClosed then ClosedAbsent else DemandClosed);
    }

    method ReleaseOwned(holder: Holder, target: DemandState, token: Token, now: nat) returns (removed: bool)
      requires Valid()
      modifies this
      ensures Valid() && Step(State(), removed) == LedgerSpec.ReleaseOwned(old(State()), holder, target, token, now)
      ensures target.Closed() || target.Eligible? ==> Preserves(old(State()), State())
      ensures RemovesHolder(old(State()), State(), holder, removed)
    {
      if target.Closed() || target.Eligible? { ReleasePreserves(State(), holder, target, token, now); }
      var tx := State();
      removed := holder in tx.permits && tx.permits[holder].token == token;
      if !removed {
        return;
      }
      tx := DropPermit(tx, holder);
      if holder in tx.demands {
        var d := tx.demands[holder];
        match target {
          case Terminal => d := d.(state := Terminal, updated := now);
          case Cancelled => d := d.(state := Cancelled, updated := now);
          case Eligible =>
            if d.state == Eligible || d.state == Granted {
              d := d.(state := Eligible, updated := now);
            }
          case Granted =>
          case Waiting =>
        }
        UpdateDemandKeepsSchema(tx, holder, d);
        tx := PutDemand(tx, holder, d);
      }
      Commit(tx);
    }

    method ReleaseNative(holder: Holder, token: Token, target: ClosedTarget, now: nat)
      returns (r: Result<OwnedReleaseOutcome, LedgerError>)
      requires Valid()
      modifies this
      ensures Valid() && Step(State(), r) == LedgerSpec.ReleaseNative(old(State()), holder, token, target, now)
      ensures Preserves(old(State()), State())
      ensures RemovesHolder(old(State()), State(), holder, r == Ok(Released))
    {
      StepPreserves(State(), OpReleaseNative(holder, token, target, now));
      var tx := State();
      var acknowledged := tx.releases - {(holder, token)};
      if holder !in tx.permits {
        if holder !in tx.demands {
          releases := acknowledged;
          return Ok(ReleaseStaleAttempt);
        }
        var d := tx.demands[holder];
        if d.lane != Native {
          return Err(DemandLaneMismatch(holder, Native, d.lane));
        }
        var recordedCancelled := target == Terminal && d.state == Cancelled && (holder, token) in tx.releases;
        releases := acknowledged;
        return Ok(if d.state == target || recordedCancelled then AlreadyAbsent else ReleaseStaleAttempt);
      }
      if tx.permits[holder].lane != Native {
        return Err(DemandLaneMismatch(holder, Native, tx.permits[holder].lane));
      }
      if tx.permits[holder].token != token {
        releases := acknowledged;
        return Ok(ReleaseStaleAttempt);
      }
      var ensured;
      ensured, tx := EnsureDemand(tx, holder, Native, "", now, now, target);
      if ensured.Err? {
        return Err(ensured.error);
      }
      var d := ensured.value.(state := target, updated := now);
      UpdateDemandKeepsSchema(tx, holder, d);
      PutDemandTwice(old(State()), holder, ensured.value, d);
      tx := PutDemand(tx, holder, d);
      Commit(DropPermit(tx, holder).(releases := acknowledged));
      r := Ok(Released);
    }

    method ReleaseScaleSet(holder: Holder, token: Token, target: DemandState, now: nat)
      returns (r: Result<OwnedReleaseOutcome, LedgerError>)
      requires Valid()
      modifies this
      ensures Valid() && Step(State(), r) == LedgerSpec.ReleaseScaleSet(old(State()), holder, token, target, now)
      ensures Preserves(old(State()), State())
      ensures RemovesHolder(old(State()), State(), holder, r == Ok(Released))
    {
      ReleaseScaleSetPreserves(State(), holder, token, target, now);
      if token == "" || target == Granted || target == Waiting {
        return Ok(ReleaseStaleAttempt);
      }
      var tx := State();
      if holder !in tx.permits {
        if holder !in tx.demands {
          return Ok(ReleaseStaleAttempt);
        }
        if tx.demands[holder].lane != ScaleSet {
          return Err(DemandLaneMismatch(holder, ScaleSet, tx.demands[holder].lane));
        }
        return Ok(if tx.demands[holder].state == target then AlreadyAbsent else ReleaseStaleAttempt);
      }
      if tx.permits[holder].lane != ScaleSet {
        return Err(DemandLaneMismatch(holder, ScaleSet, tx.permits[holder].lane));
      }
      if tx.permits[holder].token != token {
        return Ok(ReleaseStaleAttempt);
      }
      if holder !in tx.demands {
        return Err(UnknownHolder(holder));
      }
      var d := tx.demands[holder];
      if d.lane != ScaleSet {
        return Err(DemandLaneMismatch(holder, ScaleSet, d.lane));
      }
      if target == Eligible && d.state != Eligible && d.state != Granted {
        return Ok(ReleaseStaleAttempt);
      }
      tx := DropPermit(tx, holder);
      UpdateDemandKeepsSchema(tx, holder, d.(state := target, updated := now));
      Commit(PutDemand(tx, holder, d.(state := target, updated := now)));
      r := Ok(Released);
    }

    method RetainUncertain(holder: Holder, g: nat, token: Token, now: nat) returns (r: Result<(), LedgerError>)
      requires Valid()
      modifies this
      ensures Valid() && Step(State(), r) == LedgerSpec.RetainUncertain(old(State()), holder, g, token, now)
      ensures Preserves(old(State()), State())
    {
      StepPreserves(State(), OpRetainUncertain(holder, g, token, now));
      var tx := State();
      if tx.generation != g {
        return Err(StaleGenerationError(tx.generation, g));
      }
      var owned := ReadOwnedState(tx, holder, token);
      if owned.Err? {
        return Err(owned.error);
      }
      if owned.value == Cleaning {
        return Ok(());
      }
      tx := MarkUncertain(tx, holder, g, now);
      Commit(tx);
      r := Ok(());
    }

    method RetainRecordedFailure(holder: Holder, g: nat, token: Token, now: nat) returns (r: Result<(), LedgerError>)
      requires Valid()
      modifies this
      ensures Valid() && Step(State(), r) == LedgerSpec.RetainRecordedFailure(old(State()), holder, g, token, now)
      ensures Preserves(old(State()), State())
    {
      StepPreserves(State(), OpRetainRecordedFailure(holder, g, token, now));
      var tx := State();
      if tx.generation != g {
        return Err(StaleGenerationError(tx.generation, g));
      }
      var owned := ReadOwnedState(tx, holder, token);
      if owned.Err? {
        return Err(owned.error);
      }
      tx := MarkUncertain(tx, holder, g, now);
      Commit(tx);
      r := Ok(());
    }

    method RetainAfterCleanup(holder: Holder, token: Token, pid: nat, now: nat) returns (r: Result<(), LedgerError>)
      requires Valid()
      modifies this
      ensures Valid() && Step(State(), r) == LedgerSpec.RetainAfterCleanup(old(State()), holder, token, pid, now)
      ensures Preserves(old(State()), State())
    {
      RetainAfterCleanupPreserves(State(), holder, token, pid, now);
      var tx := State();
      if token == "" || holder !in tx.permits {
        return Err(StaleAttempt(holder));
      }
      var row := tx.permits[holder];
      if row.lane != Native {
        return Err(DemandLaneMismatch(holder, Native, row.lane));
      }
      if row.token != token {
        return Err(StaleAttempt(holder));
      }
      var p := row.(state := Uncertain, updated := now, generation := tx.generation, pid := Some(pid));
      PutPermitKeepsSchema(tx, holder, p);
      var ensured;
      ensured, tx := EnsureDemand(PutPermit(tx, holder, p), holder, Native, "", now, now, Granted);
      if ensured.Err? {
        return Err(ensured.error);
      }
      var d := ensured.value;
      if d.state != Cancelled {
        d := d.(state := Terminal, updated := now);
      }
      UpdateDemandKeepsSchema(tx, holder, d);
      PutDemandTwice(PutPermit(old(State()), holder, p), holder, ensured.value, d);
      Commit(PutDemand(tx, holder, d));
      r := Ok(());
    }

    /** Reconcile occupancy with live observations and with the stages of the Scale Set journal,
        in one transaction. `scan` is the order in which the database lists the permit rows. */
    method ReconcileAttempts(
        alive: seq<Live>, rotations: seq<StagedRotation>, staged: seq<StagedRelease>,
        acquisitions: seq<StagedAcquisition>, scan: seq<Holder>, now: nat)
        returns (r: Result<ReconcileReport, LedgerError>)
      requires Valid()
      requires forall h :: h in scan <==> h in permits
      modifies this
      ensures Valid()
      ensures Step(State(), r)
        == LedgerSpec.Reconcile(old(State()), alive + rotations + staged + acquisitions, scan, now)
      ensures Preserves(old(State()), State())
    {
      ReconcilePreserves(State(), alive + rotations + staged + acquisitions, scan, now);
      var start := Progress({}, State(), {}, {});
      TakeAllAppends(start, alive + rotations + staged, acquisitions, now);
      TakeAllAppends(start, alive + rotations, staged, now);
      TakeAllAppends(start, alive, rotations, now);
      var progress := ConfirmLive(start, alive, now);
      if progress.Ok? {
        progress := AttestRotations(progress.value, rotations, now);
      }
      if progress.Ok? {
        progress := AttestReleases(progress.value, staged, now);
      }
      if progress.Ok? {
        progress := AttestAcquisitions(progress.value, acquisitions, now);
      }
      if progress.Ok? {
        progress := MarkUnobserved(progress.value, scan, now);
      }
      if progress.Err? {
        return Err(progress.error);
      }
      var done := progress.value;
      Commit(done.next.(reconciled := generation));
      r := Ok(ReconcileReport(done.marked, done.confirmed));
    }
  }
}
