/** Per-attempt tokens: who may change a held row, and why a replaced token never acts again. */
module LedgerFencing {
  import opened Common
  import opened LedgerTypes
  import opened LedgerSpec
  import opened LedgerLifecycle
  import opened LedgerReconcile
  import opened LedgerRuns

  /** A release, transition, retain or cleanup claim for `h` that presents `token`. */
  predicate Presents(op: Op, h: Holder, token: Token) {
    && (op.OpTransition? || op.OpClaimCleanup? || op.OpRelease? || op.OpReleaseNative? || op.OpReleaseScaleSet?
        || op.OpRetainUncertain? || op.OpRetainRecordedFailure? || op.OpRetainAfterCleanup?)
    && op.holder == h && op.token == token
  }

  /** A token that is not the row's changes no permit. It changes no demand either, unless it
      claims cleanup for a holder that has no permit at all. */
  lemma WrongTokenChangesNothing(s: Ledger, op: Op, h: Holder, token: Token)
    requires Presents(op, h, token) && !Owns(s, h, token)
    ensures Apply(s, op).permits == s.permits
    ensures h in s.permits || !op.OpClaimCleanup? ==> Apply(s, op).demands == s.demands
  {
  }

  lemma UntokenedCallsKeepRows(s: Ledger, op: Op, h: Holder)
    requires Target(op) == Some(h) && h in s.permits
    requires !Presents(op, h, s.permits[h].token) && !op.OpAdopt? && !op.OpRotate?
    ensures Apply(s, op).permits == s.permits
  {
    if op.OpObserve? || op.OpPark? || op.OpCancel? || op.OpAcquire? || op.OpAcquireStaged? {
    } else {
      WrongTokenChangesNothing(s, op, h, op.token);
    }
  }

  /** What lets a call change the permit row that `h` holds. */
  ghost predicate Authorised(s: Ledger, op: Op, h: Holder)
    requires h in s.permits
  {
    var p := s.permits[h];
    || Presents(op, h, p.token)
    || (op.OpAdopt? && op.holder == h && op.generation == s.generation && op.lane == p.lane && p.pid.Some?
        && (p.pid.value !in op.alive || SameProcessRetained(s, h, op.lane, op.pid)))
    || (op.OpRotate? && op.rotation.holder == h && s.claim == Some(Claim(op.rotation.claim, op.pid))
        && op.rotation.generation == s.generation && op.rotation.target != p.token
        && p.lane == ScaleSet && p.pid == Some(op.rotation.previousPid)
        && PreviousTokenMatches(s, h, op.rotation.previous, p.token))
    || (op.OpReconcile? && Accepted(s, op.evidence) && Unattested(s, HoldersOf(op.evidence), h))
  }

  /** A held row changes only for its token's owner, for a redelivery whose previous process is
      dead or has let go, for the recovery claimant that names its exact pid and token, or for a
      reconciliation that nobody vouched for it in. */
  lemma RowChangesNeedAuthority(s: Ledger, op: Op, h: Holder)
    requires Inv(s) && h in s.permits
    requires !(h in Apply(s, op).permits && Apply(s, op).permits[h] == s.permits[h])
    ensures Authorised(s, op, h)
  {
    if Target(op).Some? {
      TargetedCallTouches(s, op);
      assert CellOf(Apply(s, op), h) != CellOf(s, h);
      if !Presents(op, h, s.permits[h].token) && !op.OpAdopt? && !op.OpRotate? {
        UntokenedCallsKeepRows(s, op, h);
        assert false;
      }
    } else if op.OpReconcile? {
      ReconcileOnCoherent(s, op.evidence, op.scan, op.now);
    }
  }

  // ---- Fresh tokens ----------------------------------------------------------------------

  ghost function Tokens(s: Ledger): set<Token> {
    set h | h in s.permits :: s.permits[h].token
  }

  /** The token a call could put on a row: the one it mints, stages or rotates to. */
  function Introduces(op: Op): set<Token> {
    match op
    case OpAcquire(_, _, _, _, _, minted, _) => {minted}
    case OpAcquireStaged(_, _, _, _, token, _) => {token}
    case OpAdopt(_, _, _, _, _, _, minted, _) => {minted}
    case OpRotate(r, _, _) => {r.target}
    case _ => {}
  }

  ghost predicate NothingMadeUp(s: Ledger, op: Op) {
    Tokens(Apply(s, op)) <= Tokens(s) + Introduces(op)
  }

  lemma AcquireTokens(
      s: Ledger, h: Holder, lane: Lane, state: PermitState, g: nat, worker: Option<nat>, staged: Option<Token>, minted: Token,
      now: nat)
    ensures Tokens(Acquire(s, h, lane, state, g, worker, staged, minted, now).next)
      <= Tokens(s) + {if staged.Some? then staged.value else minted}
  {
    AcquireEffect(s, h, lane, state, g, worker, staged, minted, now);
  }

  lemma AcquisitionMakesNothingUp(s: Ledger, op: Op)
    requires op.OpAcquire? || op.OpAcquireStaged?
    ensures NothingMadeUp(s, op)
  {
    if op.OpAcquire? {
      AcquireTokens(s, op.holder, op.lane, op.state, op.generation, op.worker, None, op.minted, op.now);
    } else if op.token != "" {
      AcquireTokens(s, op.holder, ScaleSet, op.state, op.generation, op.worker, Some(op.token), "", op.now);
    }
  }

  lemma TakeoverMakesNothingUp(s: Ledger, op: Op)
    requires op.OpAdopt? || op.OpRotate?
    ensures NothingMadeUp(s, op)
  {
  }

  lemma DemandMakesNothingUp(s: Ledger, op: Op)
    requires op.OpObserve? || op.OpPark? || op.OpCancel?
    ensures NothingMadeUp(s, op)
  {
  }

  lemma ReleaseMakesNothingUp(s: Ledger, op: Op)
    requires op.OpRelease? || op.OpReleaseNative? || op.OpReleaseScaleSet?
    ensures NothingMadeUp(s, op)
  {
  }

  lemma HoldMakesNothingUp(s: Ledger, op: Op)
    requires op.OpTransition? || op.OpClaimCleanup? || op.OpRetainUncertain? || op.OpRetainRecordedFailure?
      || op.OpRetainAfterCleanup?
    ensures NothingMadeUp(s, op)
  {
  }

  lemma HostMakesNothingUp(s: Ledger, op: Op)
    requires Inv(s) && Target(op).None?
    ensures NothingMadeUp(s, op)
  {
    if op.OpReconcile? { ReconcileOnCoherent(s, op.evidence, op.scan, op.now); }
  }

  /** No call makes a token up: whatever is on a row afterwards was on one before or was handed
      in by the caller. */
  lemma TokensComeFromArguments(s: Ledger, op: Op)
    requires Inv(s)
    ensures NothingMadeUp(s, op)
  {
    if op.OpAcquire? || op.OpAcquireStaged? {
      AcquisitionMakesNothingUp(s, op);
    } else if op.OpAdopt? || op.OpRotate? {
      TakeoverMakesNothingUp(s, op);
    } else if op.OpObserve? || op.OpPark? || op.OpCancel? {
      DemandMakesNothingUp(s, op);
    } else if op.OpRelease? || op.OpReleaseNative? || op.OpReleaseScaleSet? {
      ReleaseMakesNothingUp(s, op);
    } else if Target(op).Some? {
      HoldMakesNothingUp(s, op);
    } else {
      HostMakesNothingUp(s, op);
    }
  }

  /** The environment's promise about the tokens it mints and stages: a call is handed a token that
      was never on a row, or one that is on a row right now, as a replay is. `used` holds every
      token seen on a row so far. */
  ghost predicate FreshArguments(s: Ledger, ops: seq<Op>, used: set<Token>)
    decreases |ops|
  {
    ops == [] || (
      && Introduces(ops[0]) * used <= Tokens(s)
      && FreshArguments(Apply(s, ops[0]), ops[1..], used + Tokens(Apply(s, ops[0]))))
  }

  /** A token that has left the table never reappears in any run with fresh arguments. */
  lemma {:induction false} RetiredTokenNeverReturns(s: Ledger, ops: seq<Op>, used: set<Token>, t: Token)
    requires Inv(s) && FreshArguments(s, ops, used) && t in used && t !in Tokens(s)
    ensures t !in Tokens(Run(s, ops))
    decreases |ops|
  {
    if ops != [] {
      TokensComeFromArguments(s, ops[0]);
      StepRespects(s, ops[0]);
      RetiredTokenNeverReturns(Apply(s, ops[0]), ops[1..], used + Tokens(Apply(s, ops[0])), t);
    }
  }

  lemma TakeoverRetiresToken(s: Ledger, takeover: Op, h: Holder)
    requires Inv(s) && h in s.permits
    requires Target(takeover) == Some(h)
    requires h in Apply(s, takeover).permits && Apply(s, takeover).permits[h].token != s.permits[h].token
    ensures s.permits[h].token !in Tokens(Apply(s, takeover))
  {
    var s', t := Apply(s, takeover), s.permits[h].token;
    TargetedCallTouches(s, takeover);
    forall k | k in s'.permits ensures s'.permits[k].token != t {
      if k != h { assert CellOf(s', k) == CellOf(s, k); }
    }
  }

  /** A call that presents a token which is on no row changes nothing. */
  ghost predicate IsFenced(s: Ledger, late: Op, h: Holder) {
    && Apply(s, late).permits == s.permits
    && (h in s.permits || !late.OpClaimCleanup? ==> Apply(s, late).demands == s.demands)
  }

  lemma AbsentTokenIsFenced(s: Ledger, late: Op, h: Holder, t: Token)
    requires Presents(late, h, t) && t !in Tokens(s)
    ensures IsFenced(s, late, h)
  {
    assert Owns(s, h, t) ==> t in Tokens(s);
    WrongTokenChangesNothing(s, late, h, t);
  }

  /** Once adoption or rotation has replaced a token, no call that presents the old one ever
      changes a permit again; nor a demand, while its holder is held. */
  lemma ReplacedTokenIsFenced(
      s: Ledger, takeover: Op, ops: seq<Op>, late: Op, h: Holder, used: set<Token>)
    requires Inv(s) && h in s.permits && Tokens(s) <= used
    requires Target(takeover) == Some(h) && (takeover.OpAdopt? || takeover.OpRotate?)
    requires h in Apply(s, takeover).permits && Apply(s, takeover).permits[h].token != s.permits[h].token
    requires FreshArguments(Apply(s, takeover), ops, used + Tokens(Apply(s, takeover)))
    requires Presents(late, h, s.permits[h].token)
    ensures IsFenced(Run(Apply(s, takeover), ops), late, h)
  {
    var s', t := Apply(s, takeover), s.permits[h].token;
    assert t in Tokens(s);
    TakeoverRetiresToken(s, takeover, h);
    StepRespects(s, takeover);
    RetiredTokenNeverReturns(s', ops, used + Tokens(s'), t);
    AbsentTokenIsFenced(Run(s', ops), late, h, t);
  }
}
