/** The life cycle every holder follows whatever is called, the ledger's invariant, and the
    proof that each call which names a holder keeps both. */
module LedgerLifecycle {
  import opened Common
  import opened LedgerTypes
  import opened LedgerSpec

  // ---- The life cycle of one holder ------------------------------------------------------

  /** Everything the ledger records about one holder. */
  datatype Cell = Cell(permit: Option<Permit>, demand: Option<Demand>)

  ghost function CellOf(s: Ledger, h: Holder): Cell {
    Cell(if h in s.permits then Some(s.permits[h]) else None,
         if h in s.demands then Some(s.demands[h]) else None)
  }

  /** A permit stands on granted or terminal demand of its lane; granted demand has its permit. */
  ghost predicate CoherentCell(c: Cell) {
    && (c.permit.Some? ==>
          && c.demand.Some? && c.demand.value.lane == c.permit.value.lane
          && (c.demand.value.state.Granted? || c.demand.value.state.Terminal?))
    && (c.demand.Some? && c.demand.value.state.Granted? ==> c.permit.Some?)
  }

  ghost predicate Coherent(s: Ledger) {
    forall h :: CoherentCell(CellOf(s, h))
  }

  predicate SameTicket(d: Demand, e: Demand) {
    d.lane == e.lane && d.scope == e.scope && d.firstSeen == e.firstSeen && d.sequence == e.sequence
  }

  predicate Open(d: Demand) {
    d.state.Eligible? || d.state.Waiting?
  }

  /** The moves one holder can make in one call, whichever call it is. */
  ghost predicate Moves(c: Cell, c': Cell) {
    if c.permit.None? && c'.permit.None? then
      // queueing: arrive, refresh, park, revive, or close; closed demand is frozen
      c'.demand == c.demand || (
        && c'.demand.Some? && !c'.demand.value.state.Granted?
        && if c.demand.None? then c'.demand.value.state.Eligible? || c'.demand.value.state.Terminal?
           else SameTicket(c.demand.value, c'.demand.value) && Open(c.demand.value))
    else if c.permit.None? then
      // grant: only to open or newly arrived demand
      && c'.demand.Some? && c'.demand.value.state.Granted? && c'.demand.value.lane == c'.permit.value.lane
      && (c.demand.Some? ==> SameTicket(c.demand.value, c'.demand.value) && Open(c.demand.value))
    else
      && c.demand.Some? && c'.demand.Some? && SameTicket(c.demand.value, c'.demand.value)
      && (c.demand.value.state.Granted? || c.demand.value.state.Terminal?)
      && if c'.permit.None? then
           // release: requeue granted demand, or close it
           && !c'.demand.value.state.Granted? && !c'.demand.value.state.Waiting?
           && (c'.demand.value.state.Eligible? ==> c.demand.value.state.Granted?)
         else
           // hold: the occupied row stays, in its lane, on granted or terminal demand
           && c'.permit.value.lane == c.permit.value.lane
           && c'.permit.value.acquired == c.permit.value.acquired
           && (c'.demand.value.state == c.demand.value.state || c'.demand.value.state.Terminal?)
  }

  ghost predicate Inv(s: Ledger) {
    Schema(s) && Coherent(s) && s.reconciled <= s.generation
  }

  /** What every call guarantees about the database it leaves behind. */
  ghost predicate Respects(s: Ledger, s': Ledger) {
    Inv(s') && forall h :: Moves(CellOf(s, h), CellOf(s', h))
  }

  /** Calls that name a single holder change only that holder's rows. */
  ghost predicate OnlyTouches(s: Ledger, s': Ledger, holder: Holder) {
    forall h :: h != holder ==> CellOf(s', h) == CellOf(s, h)
  }

  /** Replacing one holder's rows along the life cycle keeps the invariant, provided a new
      demand takes a new sequence and a new token is on no other row. */
  lemma TouchRespects(s: Ledger, s': Ledger, holder: Holder)
    requires Inv(s) && OnlyTouches(s, s', holder) && Moves(CellOf(s, holder), CellOf(s', holder))
    requires s'.reconciled <= s'.generation
    requires holder in s'.demands && holder !in s.demands ==> s'.demands[holder].sequence == NextSequence(s.demands)
    requires holder in s'.permits ==> !TokenTaken(s.permits, holder, s'.permits[holder].token)
    ensures Respects(s, s')
  {
    forall h ensures Moves(CellOf(s, h), CellOf(s', h)) && CoherentCell(CellOf(s', h)) {
      assert CoherentCell(CellOf(s, h));
    }
    MaxSequenceIsMax(s.demands);
    forall a, b | a in s'.demands && b in s'.demands && a != b
      ensures s'.demands[a].sequence != s'.demands[b].sequence
    {
      assert CellOf(s', a).demand == Some(s'.demands[a]) && CellOf(s', b).demand == Some(s'.demands[b]);
    }
    forall a, b | a in s'.permits && b in s'.permits && a != b
      ensures s'.permits[a].token != s'.permits[b].token
    {
      assert CellOf(s', a).permit == Some(s'.permits[a]) && CellOf(s', b).permit == Some(s'.permits[b]);
    }
  }

  lemma StutterRespects(s: Ledger, s': Ledger)
    requires Inv(s) && s'.permits == s.permits && s'.demands == s.demands && s'.reconciled <= s'.generation
    ensures Respects(s, s')
  {
    forall h ensures Moves(CellOf(s, h), CellOf(s', h)) && CoherentCell(CellOf(s', h)) {
      assert CoherentCell(CellOf(s, h));
    }
  }

  // ---- Every call that names a holder ----------------------------------------------------

  /** A committed call moves its own holder along the life cycle and leaves the rest alone. */
  ghost predicate Touches(s: Ledger, s': Ledger, h: Holder) {
    && OnlyTouches(s, s', h)
    && Moves(CellOf(s, h), CellOf(s', h))
    && s'.reconciled == s.reconciled && s'.generation == s.generation
    && s'.claim == s.claim && s'.migrations == s.migrations
    && (h in s'.demands && h !in s.demands ==> s'.demands[h].sequence == NextSequence(s.demands))
    && (h in s'.permits ==> !TokenTaken(s.permits, h, s'.permits[h].token))
  }

  lemma ObserveTouches(s: Ledger, h: Holder, lane: Lane, scope: string, firstSeen: nat, observed: nat)
    requires Inv(s)
    ensures Touches(s, ObserveDemand(s, h, lane, scope, firstSeen, observed).next, h)
  {
    assert CoherentCell(CellOf(s, h));
  }

  lemma ParkTouches(s: Ledger, h: Holder, now: nat)
    requires Inv(s)
    ensures Touches(s, ParkDemand(s, h, now).next, h)
  {
    assert CoherentCell(CellOf(s, h));
  }

  lemma CancelTouches(s: Ledger, h: Holder, now: nat)
    requires Inv(s)
    ensures Touches(s, CancelDemand(s, h, now).next, h)
  {
    assert CoherentCell(CellOf(s, h));
  }

  lemma RequeueTouches(s: Ledger, h: Holder, lane: Lane, now: nat)
    requires Inv(s) && h !in s.permits && !(h in s.demands && s.demands[h].state.Closed())
    ensures Touches(s, PutDemand(s, h, Requeued(s, h, lane, now)), h)
  {
    assert CoherentCell(CellOf(s, h));
  }

  lemma GrantTouches(s: Ledger, h: Holder, d: Demand, p: Permit)
    requires Inv(s) && h !in s.permits && !(h in s.demands && s.demands[h].state.Closed())
    requires d.state.Granted? && d.lane == p.lane && !TokenTaken(s.permits, h, p.token)
    requires if h in s.demands then SameTicket(s.demands[h], d) else d.sequence == NextSequence(s.demands)
    ensures Touches(s, PutPermit(PutDemand(s, h, d), h, p), h)
  {
    assert CoherentCell(CellOf(s, h));
  }

  lemma AcquireTouches(
      s: Ledger, h: Holder, lane: Lane, state: PermitState, g: nat, worker: Option<nat>,
      staged: Option<Token>, minted: Token, now: nat)
    requires Inv(s)
    ensures Touches(s, Acquire(s, h, lane, state, g, worker, staged, minted, now).next, h)
  {
    var step := Acquire(s, h, lane, state, g, worker, staged, minted, now);
    if step.next == s {
    } else if step.reply.value.Acquired? {
      GrantTouches(s, h, step.next.demands[h], step.next.permits[h]);
    } else {
      RequeueTouches(s, h, lane, now);
    }
  }

  /** On a coherent ledger a permit row never needs its demand repaired. */
  lemma HeldDemandIsVouched(s: Ledger, h: Holder, now: nat)
    requires Coherent(s) && h in s.permits
    ensures h in s.demands && !LaneClash(s, h, s.permits[h].lane)
    ensures PutDemand(s, h, VouchedDemand(s, h, s.permits[h].lane, now)) == s
  {
    assert CoherentCell(CellOf(s, h));
    assert s.demands[h := s.demands[h]] == s.demands;
  }

  lemma RewriteTouches(s: Ledger, h: Holder, p: Permit)
    requires Inv(s) && h in s.permits
    requires p.lane == s.permits[h].lane && p.acquired == s.permits[h].acquired && !TokenTaken(s.permits, h, p.token)
    ensures Touches(s, PutPermit(s, h, p), h)
  {
    assert CoherentCell(CellOf(s, h));
  }

  lemma AdoptTouches(
      s: Ledger, h: Holder, lane: Lane, state: PermitState, g: nat, pid: nat, alive: set<nat>, minted: Token, now: nat)
    requires Inv(s)
    ensures Touches(s, AdoptForRedelivery(s, h, lane, state, g, pid, alive, minted, now).next, h)
  {
    var step := AdoptForRedelivery(s, h, lane, state, g, pid, alive, minted, now);
    if step.next != s {
      HeldDemandIsVouched(s, h, now);
      RewriteTouches(s, h, step.next.permits[h]);
    } else {
      assert CoherentCell(CellOf(s, h));
    }
  }

  lemma RotateTouches(s: Ledger, r: Rotation, pid: nat, now: nat)
    requires Inv(s)
    ensures Touches(s, RotateForRecovery(s, r, pid, now).next, r.holder)
  {
    var step := RotateForRecovery(s, r, pid, now);
    if step.next != s {
      HeldDemandIsVouched(s, r.holder, now);
      RewriteTouches(s, r.holder, step.next.permits[r.holder]);
    } else {
      assert CoherentCell(CellOf(s, r.holder));
    }
  }

  lemma TransitionTouches(s: Ledger, h: Holder, state: PermitState, g: nat, token: Token, pid: nat, now: nat)
    requires Inv(s)
    ensures Touches(s, TransitionOwned(s, h, state, g, token, pid, now).next, h)
  {
    assert CoherentCell(CellOf(s, h));
  }

  lemma ClaimCleanupTouches(s: Ledger, h: Holder, lane: Lane, token: Token, pid: nat, now: nat)
    requires Inv(s)
    ensures Touches(s, ClaimTerminalCleanup(s, h, lane, token, pid, now).next, h)
  {
    assert CoherentCell(CellOf(s, h));
  }

  lemma ReleaseTouches(s: Ledger, h: Holder, to: ReleaseTarget, token: Token, now: nat)
    requires Inv(s)
    ensures Touches(s, ReleaseOwned(s, h, to, token, now).next, h)
  {
    assert CoherentCell(CellOf(s, h));
  }

  lemma ReleaseNativeTouches(s: Ledger, h: Holder, token: Token, closed: ClosedTarget, now: nat)
    requires Inv(s)
    ensures Touches(s, ReleaseNative(s, h, token, closed, now).next, h)
  {
    assert CoherentCell(CellOf(s, h));
  }

  lemma ReleaseScaleSetTouches(s: Ledger, h: Holder, token: Token, demand: DemandState, now: nat)
    requires Inv(s)
    ensures Touches(s, ReleaseScaleSet(s, h, token, demand, now).next, h)
  {
    assert CoherentCell(CellOf(s, h));
  }

  lemma RetainUncertainTouches(s: Ledger, h: Holder, g: nat, token: Token, now: nat)
    requires Inv(s)
    ensures Touches(s, RetainUncertain(s, h, g, token, now).next, h)
  {
    assert CoherentCell(CellOf(s, h));
  }

  lemma RetainRecordedFailureTouches(s: Ledger, h: Holder, g: nat, token: Token, now: nat)
    requires Inv(s)
    ensures Touches(s, RetainRecordedFailure(s, h, g, token, now).next, h)
  {
    assert CoherentCell(CellOf(s, h));
  }

  lemma RetainAfterCleanupTouches(s: Ledger, h: Holder, token: Token, pid: nat, now: nat)
    requires Inv(s)
    ensures Touches(s, RetainAfterCleanup(s, h, token, pid, now).next, h)
  {
    assert CoherentCell(CellOf(s, h));
  }
}
