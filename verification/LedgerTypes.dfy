/** The tables of the host-wide permit ledger, one datatype per row. */
module LedgerTypes {
  import opened Common

  type Holder = string
  type Token = string

  datatype Lane = Native | ScaleSet

  datatype DemandState = Eligible | Granted | Terminal | Cancelled | Waiting {
    /** Closed demand never takes part in admission again. */
    predicate Closed() {
      Terminal? || Cancelled?
    }
  }

  /** A release may send demand back to the queue or close it. */
  type ReleaseTarget = d: DemandState | d.Terminal? || d.Cancelled? || d.Eligible? witness Terminal

  type ClosedTarget = d: DemandState | d.Closed() witness Terminal

  /** One `permit_demands` row. `firstSeen` and `sequence` are its queue ticket. */
  datatype Demand = Demand(
    lane: Lane, scope: string, firstSeen: nat, sequence: nat, state: DemandState, updated: nat)

  datatype PermitState =
    Reserved | Acquiring | Provisioning | Assignable | Running | Cleaning | Uncertain

  /** One `permits` row; its presence is occupancy, whatever its state. */
  datatype Permit = Permit(
    lane: Lane, state: PermitState, acquired: nat, updated: nat, generation: nat,
    pid: Option<nat>, token: Token,
    recoveryClaim: Option<Token>, recoveryPid: Option<nat>, recoveryToken: Option<Token>)

  /** The single `scaleset_recovery_claims` row. */
  datatype Claim = Claim(token: Token, owner: nat)

  /** The whole database. `migrations` maps a holder to its one-time legacy token;
      `reconciled` starts at -1, below every generation. */
  datatype Ledger = Ledger(
    maxJobs: Option<nat>, generation: nat, reconciled: int,
    permits: map<Holder, Permit>, demands: map<Holder, Demand>,
    migrations: map<Holder, Token>, claim: Option<Claim>, releases: set<(Holder, Token)>)

  const EMPTY_LEDGER := Ledger(None, 0, -1, map[], map[], map[], None, {})

  /** An unrefreshed offer this old no longer blocks younger demand. */
  const DEMAND_STALE_AFTER_SECS: nat := 300

  datatype LedgerError =
    | Storage
    | UnknownHolder(holder: Holder)
    | StaleAttempt(what: string)
    | RecoveryClaimed(pid: nat)
    | DemandLaneMismatch(holder: Holder, expected: Lane, seen: Lane)
    | StaleGenerationError(current: nat, given: nat)

  datatype AcquireOutcome =
    | Acquired(attemptToken: Token)
    | AlreadyHeld
    | Full
    | Deferred
    | ClosedDemand
    | StaleGeneration
    | NotConfigured

  datatype AdoptOutcome = Adopted(attemptToken: Token) | LiveHolder | AdoptMissing | AdoptStaleGeneration

  datatype CleanupClaimOutcome = Claimed | ClosedAbsent | DemandClosed | CleanupStaleAttempt

  datatype RotationOutcome =
    Rotated | AlreadyRotated | RotationMissing | RotationStaleAttempt | RotationStaleGeneration

  datatype OwnedReleaseOutcome = Released | AlreadyAbsent | ReleaseStaleAttempt

  /** One line of evidence handed to reconciliation. */
  datatype Evidence =
    | LiveEvidence(holder: Holder, lane: Lane, token: Token)
    | RotationStage(holder: Holder, lane: Lane, previous: Option<Token>, target: Token)
    | ReleaseStage(holder: Holder, lane: Lane, token: Token, demand: DemandState)
    | AcquireStage(holder: Holder, lane: Lane, token: Token)

  type Live = e: Evidence | e.LiveEvidence? witness LiveEvidence("", Native, "")
  type StagedRotation = e: Evidence | e.RotationStage? witness RotationStage("", Native, None, "")
  type StagedRelease = e: Evidence | e.ReleaseStage? witness ReleaseStage("", Native, "", Terminal)
  type StagedAcquisition = e: Evidence | e.AcquireStage? witness AcquireStage("", Native, "")

  /** The report's vectors are sorted and duplicate-free, so each is its set of holders. */
  datatype ReconcileReport = ReconcileReport(markedUncertain: set<Holder>, confirmed: set<Holder>)
}
