/** The queries and row updates that ledger transactions are made of. Each works on a copy of the
    tables and hands back the updated copy; the caller commits it or lets it go. */
module LedgerTables {
  import opened Common
  import opened LedgerTypes
  import opened LedgerSpec

  /** SELECT COALESCE(MAX(sequence), 0) + 1. */
  method SelectNextSequence(demands: map<Holder, Demand>) returns (n: nat)
    ensures n == NextSequence(demands)
  {
    var rest := demands.Keys;
    var m := 0;
    while rest != {}
      invariant rest <= demands.Keys
      invariant forall h :: h in demands && h !in rest ==> demands[h].sequence <= m
      invariant m == 0 || exists h :: h in demands && demands[h].sequence == m
      decreases rest
    {
      var h :| h in rest;
      if m < demands[h].sequence { m := demands[h].sequence; }
      rest := rest - {h};
    }
    MaxSequenceIsMax(demands);
    n := m + 1;
  }

  /** SELECT holder ... WHERE eligible and fresh ORDER BY first_seen, sequence LIMIT 1. */
  method SelectOldest(demands: map<Holder, Demand>, now: nat) returns (oldest: Option<Holder>)
    requires SequencesUnique(demands)
    ensures oldest.Some? <==> HasContender(demands, now)
    ensures oldest.Some? ==> IsHead(demands, now, oldest.value)
  {
    var rest := demands.Keys;
    oldest := None;
    while rest != {}
      invariant rest <= demands.Keys
      invariant oldest.Some? ==> oldest.value in demands && oldest.value !in rest && Contends(demands[oldest.value], now)
      invariant forall k :: k in demands && k !in rest && Contends(demands[k], now) ==>
        oldest.Some? && (k == oldest.value || TicketBefore(demands[oldest.value], demands[k]))
      decreases rest
    {
      var h :| h in rest;
      if Contends(demands[h], now) && (oldest.None? || TicketBefore(demands[h], demands[oldest.value])) {
        oldest := Some(h);
      }
      rest := rest - {h};
    }
  }

  /** Read the holder's demand, inserting it at the tail of the queue when there is none. */
  method EnsureDemand(
      tx: Ledger, holder: Holder, lane: Lane, scope: string, firstSeen: nat, updated: nat, initial: DemandState)
      returns (r: Result<Demand, LedgerError>, tx': Ledger)
    ensures r == if LaneClash(tx, holder, lane) then Err(LaneError(tx, holder, lane))
                 else Ok(DemandOrNew(tx, holder, lane, scope, firstSeen, updated, initial))
    ensures tx' == if r.Ok? then PutDemand(tx, holder, r.value) else tx
    ensures Schema(tx) ==> Schema(tx')
  {
    if holder in tx.demands {
      var d := tx.demands[holder];
      if d.lane != lane {
        return Err(DemandLaneMismatch(holder, lane, d.lane)), tx;
      }
      assert tx.demands[holder := d] == tx.demands;
      return Ok(d), tx;
    }
    var sequence := SelectNextSequence(tx.demands);
    var d := Demand(lane, scope, firstSeen, sequence, initial, updated);
    if Schema(tx) { InsertDemandKeepsSchema(tx, holder, d); }
    return Ok(d), PutDemand(tx, holder, d);
  }

  /** A permit row's demand: created granted when missing, promoted when eligible. */
  method VouchDemand(tx: Ledger, holder: Holder, lane: Lane, now: nat) returns (error: Option<LedgerError>, tx': Ledger)
    ensures error == if LaneClash(tx, holder, lane) then Some(LaneError(tx, holder, lane)) else None
    ensures error.None? ==> tx' == PutDemand(tx, holder, VouchedDemand(tx, holder, lane, now))
    ensures Schema(tx) && error.None? ==> Schema(tx')
  {
    var r, ensured := EnsureDemand(tx, holder, lane, "", now, now, Granted);
    if r.Err? {
      return Some(r.error), tx;
    }
    tx' := ensured;
    if r.value.state == Eligible {
      var d := tx'.demands[holder].(state := Granted, updated := now);
      if Schema(tx) { UpdateDemandKeepsSchema(tx', holder, d); }
      PutDemandTwice(tx, holder, r.value, d);
      tx' := PutDemand(tx', holder, d);
    }
    error := None;
  }

  lemma {:induction false} TakeAllAppends(p: Progress, a: seq<Evidence>, b: seq<Evidence>, now: nat)
    ensures TakeAll(p, a + b, now)
      == match TakeAll(p, a, now) case Ok(q) => TakeAll(q, b, now) case Err(e) => Err(e)
    decreases |a|
  {
    if a == [] {
      assert a + b == b;
    } else {
      assert (a + b)[1..] == a[1..] + b;
      var q := TakeEvidence(p, a[0], now);
      if q.Ok? { TakeAllAppends(q.value, a[1..], b, now); }
    }
  }

  method ConfirmLive(start: Progress, alive: seq<Live>, now: nat) returns (r: Result<Progress, LedgerError>)
    requires Schema(start.next)
    ensures r == TakeAll(start, alive, now)
    ensures r.Ok? ==> Schema(r.value.next) && r.value.next.permits == start.next.permits
  {
    var seen, tx, confirmed := start.seen, start.next, start.confirmed;
    for i := 0 to |alive|
      invariant Schema(tx) && tx.permits == start.next.permits
      invariant TakeAll(start, alive, now) == TakeAll(Progress(seen, tx, confirmed, start.marked), alive[i..], now)
    {
      var e := alive[i];
      ghost var before := Progress(seen, tx, confirmed, start.marked);
      assert alive[i..][0] == e && alive[i..][1..] == alive[i + 1..];
      if e.token == "" || e.holder in seen {
        return Err(StaleAttempt(e.holder));
      }
      seen := seen + {e.holder};
      if e.holder !in tx.permits {
        return Err(StaleAttempt(e.holder));
      }
      var row := tx.permits[e.holder];
      if row.lane != e.lane {
        return Err(DemandLaneMismatch(e.holder, e.lane, row.lane));
      }
      if row.token != e.token {
        return Err(StaleAttempt(e.holder));
      }
      var error, vouched := VouchDemand(tx, e.holder, e.lane, now);
      if error.Some? {
        return Err(error.value);
      }
      tx := vouched;
      confirmed := confirmed + {e.holder};
      assert TakeEvidence(before, e, now) == Ok(Progress(seen, tx, confirmed, start.marked));
    }
    r := Ok(Progress(seen, tx, confirmed, start.marked));
  }

  method AttestRotations(start: Progress, rotations: seq<StagedRotation>, now: nat) returns (r: Result<Progress, LedgerError>)
    requires Schema(start.next)
    ensures r == TakeAll(start, rotations, now)
    ensures r.Ok? ==> Schema(r.value.next) && r.value.next.permits == start.next.permits
  {
    var seen, tx, confirmed := start.seen, start.next, start.confirmed;
    for i := 0 to |rotations|
      invariant Schema(tx) && tx.permits == start.next.permits
      invariant TakeAll(start, rotations, now) == TakeAll(Progress(seen, tx, confirmed, start.marked), rotations[i..], now)
    {
      var e := rotations[i];
      ghost var before := Progress(seen, tx, confirmed, start.marked);
      assert rotations[i..][0] == e && rotations[i..][1..] == rotations[i + 1..];
      if e.lane != ScaleSet || e.target == "" || e.previous == Some("") || e.previous == Some(e.target) || e.holder in seen {
        return Err(StaleAttempt(e.holder));
      }
      seen := seen + {e.holder};
      if e.holder !in tx.permits {
        return Err(StaleAttempt(e.holder));
      }
      var row := tx.permits[e.holder];
      if row.lane != ScaleSet {
        return Err(DemandLaneMismatch(e.holder, ScaleSet, row.lane));
      }
      var completed := row.recoveryClaim.Some? && row.recoveryClaim.value != ""
        && row.recoveryPid.Some? && row.recoveryPid.value > 0 && row.recoveryToken == e.previous;
      var matches := false;
      if e.previous == Some(row.token) {
        matches := true;
      } else if row.token == e.target {
        matches := completed;
      } else if e.previous.None? {
        matches := e.holder in tx.migrations && tx.migrations[e.holder] == row.token;
      }
      if row.token == "" || !matches {
        return Err(StaleAttempt(e.holder));
      }
      var error, vouched := VouchDemand(tx, e.holder, ScaleSet, now);
      if error.Some? {
        return Err(error.value);
      }
      tx := vouched;
      confirmed := confirmed + {e.holder};
      assert TakeEvidence(before, e, now) == Ok(Progress(seen, tx, confirmed, start.marked));
    }
    r := Ok(Progress(seen, tx, confirmed, start.marked));
  }

  method AttestReleases(start: Progress, staged: seq<StagedRelease>, now: nat) returns (r: Result<Progress, LedgerError>)
    ensures r == TakeAll(start, staged, now)
    ensures r.Ok? ==> r.value.next == start.next
  {
    var seen, confirmed := start.seen, start.confirmed;
    var tx := start.next;
    for i := 0 to |staged|
      invariant TakeAll(start, staged, now) == TakeAll(Progress(seen, tx, confirmed, start.marked), staged[i..], now)
    {
      var e := staged[i];
      ghost var before := Progress(seen, tx, confirmed, start.marked);
      assert staged[i..][0] == e && staged[i..][1..] == staged[i + 1..];
      if e.lane != ScaleSet {
        return Err(DemandLaneMismatch(e.holder, ScaleSet, e.lane));
      }
      if e.demand == Granted || e.demand == Waiting || e.token == "" || e.holder in seen {
        return Err(StaleAttempt(e.holder));
      }
      seen := seen + {e.holder};
      if e.holder !in tx.permits {
        if e.holder !in tx.demands {
          return Err(StaleAttempt(e.holder));
        }
        if tx.demands[e.holder].lane != e.lane {
          return Err(DemandLaneMismatch(e.holder, e.lane, tx.demands[e.holder].lane));
        }
        if tx.demands[e.holder].state != e.demand {
          return Err(StaleAttempt(e.holder));
        }
      } else {
        if tx.permits[e.holder].lane != e.lane {
          return Err(DemandLaneMismatch(e.holder, ScaleSet, tx.permits[e.holder].lane));
        }
        if tx.permits[e.holder].token != e.token {
          return Err(StaleAttempt(e.holder));
        }
        confirmed := confirmed + {e.holder};
      }
      assert TakeEvidence(before, e, now) == Ok(Progress(seen, tx, confirmed, start.marked));
    }
    r := Ok(Progress(seen, tx, confirmed, start.marked));
  }

  method AttestAcquisitions(start: Progress, acquisitions: seq<StagedAcquisition>, now: nat)
    returns (r: Result<Progress, LedgerError>)
    ensures r == TakeAll(start, acquisitions, now)
    ensures r.Ok? ==> r.value.next == start.next
  {
    var seen, confirmed := start.seen, start.confirmed;
    var tx := start.next;
    for i := 0 to |acquisitions|
      invariant TakeAll(start, acquisitions, now) == TakeAll(Progress(seen, tx, confirmed, start.marked), acquisitions[i..], now)
    {
      var e := acquisitions[i];
      ghost var before := Progress(seen, tx, confirmed, start.marked);
      assert acquisitions[i..][0] == e && acquisitions[i..][1..] == acquisitions[i + 1..];
      if e.lane != ScaleSet || e.token == "" || e.holder in seen {
        return Err(StaleAttempt(e.holder));
      }
      seen := seen + {e.holder};
      if e.holder in tx.permits {
        if tx.permits[e.holder].lane != e.lane {
          return Err(DemandLaneMismatch(e.holder, e.lane, tx.permits[e.holder].lane));
        }
        if tx.permits[e.holder].token != e.token {
          return Err(StaleAttempt(e.holder));
        }
        confirmed := confirmed + {e.holder};
      }
      assert TakeEvidence(before, e, now) == Ok(Progress(seen, tx, confirmed, start.marked));
    }
    r := Ok(Progress(seen, tx, confirmed, start.marked));
  }

  method MarkUnobserved(start: Progress, scan: seq<Holder>, now: nat) returns (r: Result<Progress, LedgerError>)
    requires Schema(start.next) && forall h :: h in scan ==> h in start.next.permits
    ensures r == MarkAll(start, scan, now)
    ensures r.Ok? ==> Schema(r.value.next)
  {
    var tx, marked := start.next, start.marked;
    for i := 0 to |scan|
      invariant Schema(tx) && tx.permits.Keys == start.next.permits.Keys
      invariant MarkAll(start, scan, now) == MarkAll(start.(next := tx, marked := marked), scan[i..], now)
    {
      var h := scan[i];
      ghost var before := start.(next := tx, marked := marked);
      assert scan[i..][0] == h && scan[i..][1..] == scan[i + 1..];
      if h !in start.seen && tx.permits[h].state != Cleaning {
        var row := tx.permits[h].(state := Uncertain, updated := now, generation := tx.generation);
        PutPermitKeepsSchema(tx, h, row);
        var error, vouched := VouchDemand(PutPermit(tx, h, row), h, row.lane, now);
        if error.Some? {
          return Err(error.value);
        }
        tx := vouched;
        marked := marked + {h};
      }
      assert MarkRow(before, h, now) == Ok(start.(next := tx, marked := marked));
    }
    r := Ok(start.(next := tx, marked := marked));
  }

  /** The state of the row, if it still carries this attempt's token. */
  method ReadOwnedState(tx: Ledger, holder: Holder, token: Token) returns (r: Result<PermitState, LedgerError>)
    ensures r == if Owns(tx, holder, token) then Ok(tx.permits[holder].state) else Err(NotOwnerError(tx, holder))
  {
    if holder in tx.permits {
      return if tx.permits[holder].token == token then Ok(tx.permits[holder].state) else Err(StaleAttempt(holder));
    }
    r := Err(if holder in tx.demands then StaleAttempt(holder) else UnknownHolder(holder));
  }

  /** Keep the permit counted as uncertain and close its open demand. */
  method MarkUncertain(tx: Ledger, holder: Holder, g: nat, now: nat) returns (tx': Ledger)
    requires Schema(tx) && holder in tx.permits
    ensures tx' == RetainRow(tx, holder, g, now) && Schema(tx')
  {
    var p := tx.permits[holder].(state := Uncertain, updated := now, generation := g);
    PutPermitKeepsSchema(tx, holder, p);
    tx' := PutPermit(tx, holder, p);
    if holder in tx'.demands && tx'.demands[holder].state in {Eligible, Granted} {
      var d := tx'.demands[holder].(state := Terminal, updated := now);
      UpdateDemandKeepsSchema(tx', holder, d);
      tx' := PutDemand(tx', holder, d);
    }
  }

  /** Put the acquiring holder's demand in the queue, or reply at once if it is closed or of another
      lane. */
  method RequeueDemand(tx: Ledger, holder: Holder, lane: Lane, now: nat)
    returns (queued: Result<Demand, Result<AcquireOutcome, LedgerError>>, tx': Ledger)
    requires Schema(tx)
    ensures queued ==
      if LaneClash(tx, holder, lane) then Err(Err(LaneError(tx, holder, lane)))
      else if holder in tx.demands && tx.demands[holder].state.Closed() then Err(Ok(ClosedDemand))
      else Ok(Requeued(tx, holder, lane, now))
    ensures queued.Ok? ==> tx' == PutDemand(tx, holder, queued.value) && Schema(tx')
  {
    var ensured;
    ensured, tx' := EnsureDemand(tx, holder, lane, "", now, now, Eligible);
    if ensured.Err? {
      return Err(Err(ensured.error)), tx;
    }
    var d := ensured.value;
    if d.state == Terminal || d.state == Cancelled {
      return Err(Ok(ClosedDemand)), tx;
    }
    if d.state == Granted {
      d := d.(state := Eligible, updated := now);
    } else if d.state == Waiting {
      d := d.(state := Eligible, updated := now);
    } else {
      d := d.(updated := now);
    }
    UpdateDemandKeepsSchema(tx', holder, d);
    PutDemandTwice(tx, holder, ensured.value, d);
    tx' := PutDemand(tx', holder, d);
    queued := Ok(d);
  }

  /** The rest of an acquire once its demand `d` is queued in `tx`; `s` is what a rollback restores. */
  method AdmitQueued(
      s: Ledger, tx: Ledger, holder: Holder, d: Demand, state: PermitState, pid: Option<nat>, token: Token, now: nat)
      returns (r: Result<AcquireOutcome, LedgerError>, tx': Ledger)
    requires Schema(s) && Schema(tx) && s.maxJobs.Some?
    requires tx == PutDemand(s, holder, d) && d.updated == now
    ensures Step(tx', r) == Admit(s, holder, d, state, pid, token, now)
    ensures Schema(tx')
  {
    if |tx.permits| >= tx.maxJobs.value {
      return Ok(Full), tx;
    }
    var oldest := SelectOldest(tx.demands, now);
    if oldest.None? {
      return Err(Storage), s;
    }
    if oldest.value != holder {
      return Ok(Deferred), tx;
    }
    if TokenTaken(tx.permits, holder, token) {
      return Err(Storage), s;
    }
    var p := Permit(d.lane, state, now, now, tx.generation, pid, token, None, None, None);
    var granted := d.(state := Granted, updated := now);
    UpdateDemandKeepsSchema(tx, holder, granted);
    PutDemandTwice(s, holder, d, granted);
    tx' := PutDemand(tx, holder, granted);
    PutPermitKeepsSchema(tx', holder, p);
    tx' := PutPermit(tx', holder, p);
    r := Ok(Acquired(token));
  }

  method AcquireHeldRow(tx: Ledger, holder: Holder, lane: Lane, state: PermitState, staged: Option<Token>)
    returns (r: Result<AcquireOutcome, LedgerError>)
    requires holder in tx.permits
    ensures r == AcquireHeld(tx, holder, lane, state, staged)
  {
    var p := tx.permits[holder];
    if p.lane != lane {
      return Err(DemandLaneMismatch(holder, lane, p.lane));
    }
    if staged == Some(p.token) && p.state == state {
      if holder !in tx.demands {
        return Err(UnknownHolder(holder));
      }
      var d := tx.demands[holder];
      if d.lane != lane {
        return Err(DemandLaneMismatch(holder, lane, d.lane));
      }
      if d.state != Granted {
        return Ok(AlreadyHeld);
      }
      return Ok(Acquired(p.token));
    }
    r := Ok(AlreadyHeld);
  }

  /** An acquire by a holder without a row, once N is known. */
  method QueueAndAdmit(
      start: Ledger, holder: Holder, lane: Lane, state: PermitState, pid: Option<nat>, token: Token, now: nat)
    returns (r: Result<AcquireOutcome, LedgerError>, tx: Ledger)
    requires Schema(start) && start.maxJobs.Some?
    ensures Schema(tx) && Step(tx, r) ==
      if LaneClash(start, holder, lane) then Step(start, Err(LaneError(start, holder, lane)))
      else if holder in start.demands && start.demands[holder].state.Closed() then Step(start, Ok(ClosedDemand))
      else Admit(start, holder, Requeued(start, holder, lane, now), state, pid, token, now)
  {
    var queued;
    queued, tx := RequeueDemand(start, holder, lane, now);
    if queued.Err? {
      return queued.error, start;
    }
    r, tx := AdmitQueued(start, tx, holder, queued.value, state, pid, token, now);
  }

  /** The acquiring transaction: what to commit, which is the starting state if it rolls back. */
  method AcquireRow(
      start: Ledger, holder: Holder, lane: Lane, state: PermitState, g: nat, pid: Option<nat>, staged: Option<Token>,
      minted: Token, now: nat)
    returns (r: Result<AcquireOutcome, LedgerError>, tx: Ledger)
    requires Schema(start)
    ensures Schema(tx) && Step(tx, r) == LedgerSpec.Acquire(start, holder, lane, state, g, pid, staged, minted, now)
  {
    tx := start;
    if tx.generation != g {
      r := Ok(StaleGeneration);
    } else if holder in tx.permits {
      r := AcquireHeldRow(tx, holder, lane, state, staged);
    } else if tx.maxJobs.None? {
      r := Ok(NotConfigured);
    } else {
      r, tx := QueueAndAdmit(tx, holder, lane, state, pid, if staged.Some? then staged.value else minted, now);
    }
  }
}
