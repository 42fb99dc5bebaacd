/** Oldest-first admission: the queue never wedges and nobody is overtaken. */
module LedgerQueue {
  import opened Common
  import opened LedgerTypes
  import opened LedgerSpec
  import opened LedgerLifecycle
  import LedgerReconcile
  import opened LedgerRuns
  import opened LedgerCapacity

  lemma {:induction false} OldestOf(demands: map<Holder, Demand>, candidates: set<Holder>) returns (h: Holder)
    requires SequencesUnique(demands) && candidates != {} && candidates <= demands.Keys
    ensures h in candidates
    ensures forall k :: k in candidates && k != h ==> TicketBefore(demands[h], demands[k])
    decreases candidates
  {
    var pick :| pick in candidates;
    var rest := candidates - {pick};
    h := pick;
    if rest == {} {
      assert candidates == {pick};
    } else {
      var r := OldestOf(demands, rest);
      h := if TicketBefore(demands[r], demands[pick]) then r else pick;
      forall k | k in candidates && k != h
        ensures TicketBefore(demands[h], demands[k])
      {
        assert k == pick || k == r || (k in rest && TicketBefore(demands[r], demands[k]));
      }
    }
  }

  /** Whenever some fresh eligible demand exists, the admission query has exactly one answer. */
  lemma HeadExists(demands: map<Holder, Demand>, now: nat) returns (h: Holder)
    requires SequencesUnique(demands) && HasContender(demands, now)
    ensures IsHead(demands, now, h)
    ensures forall k :: IsHead(demands, now, k) ==> k == h
  {
    var contenders := set k | k in demands && Contends(demands[k], now);
    var someone :| someone in demands && Contends(demands[someone], now);
    assert someone in contenders;
    h := OldestOf(demands, contenders);
    assert forall k :: IsHead(demands, now, k) ==> k in contenders;
  }

  /** The acquiring holder is itself a contender, so the query comes back empty only on a clock
      that reads zero, when nobody else is fresh either; with a minted token or a staged one. */
  lemma LookupFailsOnlyAtTimeZero(
      s: Ledger, h: Holder, lane: Lane, state: PermitState, worker: Option<nat>, staged: Option<Token>, minted: Token, now: nat)
    requires Inv(s) && h !in s.permits && !TokenTaken(s.permits, h, if staged.Some? then staged.value else minted)
    requires s.maxJobs.Some? && |s.permits| < s.maxJobs.value
    requires !LaneClash(s, h, lane) && !(h in s.demands && s.demands[h].state.Closed())
    ensures Acquire(s, h, lane, state, s.generation, worker, staged, minted, now).reply == Err(Storage)
      <==> now == 0 && !HasContender(s.demands - {h}, now)
  {
    var queued := s.demands[h := Requeued(s, h, lane, now)];
    assert Contends(queued[h], now) <==> now > 0;
    assert forall k :: k in s.demands - {h} ==> k in queued && queued[k] == (s.demands - {h})[k];
    assert forall k :: k in queued && k != h ==> k in s.demands - {h};
    assert HasContender(queued, now) <==> now > 0 || HasContender(s.demands - {h}, now);
  }

  /** Refreshing the head's own row keeps it at the head, unless the clock reads zero. */
  lemma RefreshedHead(s: Ledger, h: Holder, now: nat)
    requires IsHead(s.demands, now, h)
    ensures IsHead(s.demands[h := Requeued(s, h, s.demands[h].lane, now)], now, h) <==> now > 0
  {
    var queued := s.demands[h := Requeued(s, h, s.demands[h].lane, now)];
    assert SameTicket(queued[h], s.demands[h]) && (Contends(queued[h], now) <==> now > 0);
  }

  /** The queue never wedges: below capacity, whenever some fresh eligible demand exists there is
      a head, and that head's own acquire in the current epoch, with a minted token or a staged
      one, is granted exactly when the clock does not read zero. */
  lemma HeadIsGranted(s: Ledger, state: PermitState, worker: Option<nat>, staged: Option<Token>, minted: Token, now: nat)
    returns (h: Holder)
    requires Inv(s) && s.maxJobs.Some? && |s.permits| < s.maxJobs.value
    requires HasContender(s.demands, now)
    requires forall k :: k in s.permits ==> s.permits[k].token != if staged.Some? then staged.value else minted
    ensures IsHead(s.demands, now, h)
    ensures Acquire(s, h, s.demands[h].lane, state, s.generation, worker, staged, minted, now).reply
        == Ok(Acquired(if staged.Some? then staged.value else minted))
      <==> now > 0
  {
    h := HeadExists(s.demands, now);
    assert CoherentCell(CellOf(s, h));
    RefreshedHead(s, h, now);
  }

  /** In particular the replayable acquisition of a Scale Set head. */
  lemma StagedHeadIsGranted(s: Ledger, state: PermitState, worker: Option<nat>, token: Token, now: nat) returns (h: Holder)
    requires Inv(s) && s.maxJobs.Some? && |s.permits| < s.maxJobs.value
    requires HasContender(s.demands, now) && token != ""
    requires forall k :: k in s.permits ==> s.permits[k].token != token
    ensures IsHead(s.demands, now, h)
    ensures s.demands[h].lane == ScaleSet ==>
      (AcquireStaged(s, h, state, s.generation, worker, token, now).reply == Ok(Acquired(token)) <==> now > 0)
  {
    h := HeadIsGranted(s, state, worker, Some(token), "", now);
  }

  /** One waiting demand, room for one job, and a clock that reads zero: the head of the queue is
      refused because its own refresh makes it stale. */
  lemma ClockZeroRefusesTheHead()
    ensures var s := Run(EMPTY_LEDGER, [OpSetMaxJobs(1), OpObserve("a", Native, "", 0, 5)]);
      && s.maxJobs == Some(1) && s.permits == map[] && IsHead(s.demands, 0, "a")
      && Acquire(s, "a", Native, Reserved, s.generation, None, None, "t", 0).reply == Err(Storage)
  {
    var configure, observe := OpSetMaxJobs(1), OpObserve("a", Native, "", 0, 5);
    var s := Apply(Apply(EMPTY_LEDGER, configure), observe);
    assert [configure, observe][1..] == [observe] && [observe][1..] == [];
    assert Run(s, []) == s;
    assert Run(Apply(EMPTY_LEDGER, configure), [observe]) == s;
    assert s.demands == map["a" := Demand(Native, "", 0, NextSequence(map[]), Eligible, 5)];
    assert IsHead(s.demands, 0, "a");
    var queued := s.demands["a" := Requeued(s, "a", Native, 0)];
    assert queued["a"].updated == 0 && !HasContender(queued, 0);
  }

  // ---- No overtaking ---------------------------------------------------------------------

  /** The clock reading of an acquire made by anyone but `h`. */
  predicate RivalAcquire(op: Op, h: Holder) {
    (op.OpAcquire? || op.OpAcquireStaged?) && op.holder != h
  }

  /** `h` stays eligible all through the run, and fresh whenever a rival tries to acquire. */
  ghost predicate KeepsWaiting(s: Ledger, ops: seq<Op>, h: Holder)
    decreases |ops|
  {
    && h in s.demands && s.demands[h].state.Eligible?
    && (ops != [] ==>
          && (RivalAcquire(ops[0], h) ==> Contends(s.demands[h], ops[0].now))
          && KeepsWaiting(Apply(s, ops[0]), ops[1..], h))
  }

  function AcquireLane(op: Op): Lane
    requires op.OpAcquire? || op.OpAcquireStaged?
  {
    if op.OpAcquire? then op.lane else ScaleSet
  }

  /** A grant goes to the head of the queue and turns exactly its demand granted. */
  lemma GrantGoesToTheHead(s: Ledger, op: Op)
    requires IsGrant(s, op)
    ensures op.OpAcquire? || op.OpAcquireStaged?
    ensures var d := Requeued(s, op.holder, AcquireLane(op), op.now);
      && IsHead(s.demands[op.holder := d], op.now, op.holder)
      && Apply(s, op).demands == s.demands[op.holder := d.(state := Granted)]
  {
    if op.OpAcquire? {
      AcquireEffect(s, op.holder, op.lane, op.state, op.generation, op.worker, None, op.minted, op.now);
    } else {
      AcquireEffect(s, op.holder, ScaleSet, op.state, op.generation, op.worker, Some(op.token), "", op.now);
    }
  }

  /** So it always goes to a ticket strictly older than every other contender's. */
  lemma GrantGoesToTheOldest(s: Ledger, op: Op, h: Holder)
    requires IsGrant(s, op)
    requires h in s.demands && h != op.holder && Contends(s.demands[h], op.now)
    ensures op.holder in Apply(s, op).demands
    ensures TicketBefore(Apply(s, op).demands[op.holder], s.demands[h])
    ensures op.holder !in s.demands ==> Apply(s, op).demands[op.holder].sequence > s.demands[h].sequence
  {
    GrantGoesToTheHead(s, op);
    MaxSequenceIsMax(s.demands);
    var queued := s.demands[op.holder := Requeued(s, op.holder, AcquireLane(op), op.now)];
    assert h in queued && queued[h] == s.demands[h];
  }

  /** A ticket issued by this call sorts, by sequence, after every ticket issued before. */
  lemma NewTicketIsLast(s: Ledger, op: Op, k: Holder, h: Holder)
    requires Inv(s) && k !in s.demands && k in Apply(s, op).demands && h in s.demands
    ensures Apply(s, op).demands[k].sequence > s.demands[h].sequence
  {
    MaxSequenceIsMax(s.demands);
    if Target(op).Some? {
      TargetedCallTouches(s, op);
      assert CellOf(s, k) != CellOf(Apply(s, op), k);
    } else if op.OpReconcile? {
      LedgerReconcile.ReconcileOnCoherent(s, op.evidence, op.scan, op.now);
    }
  }

  /** A grant that leaves `h` waiting went to somebody with an older ticket. */
  lemma GrantPassesNobody(s: Ledger, op: Op, h: Holder)
    requires IsGrant(s, op) && h in s.demands && (RivalAcquire(op, h) ==> Contends(s.demands[h], op.now))
    requires h in Apply(s, op).demands && Apply(s, op).demands[h].state.Eligible?
    ensures op.OpAcquire? || op.OpAcquireStaged?
    ensures op.holder != h && op.holder in Apply(s, op).demands
    ensures TicketBefore(Apply(s, op).demands[op.holder], s.demands[h])
    ensures op.holder !in s.demands ==> Apply(s, op).demands[op.holder].firstSeen < s.demands[h].firstSeen
  {
    GrantGoesToTheHead(s, op);
    GrantGoesToTheOldest(s, op, h);
  }

  lemma RunOfPrefix(s: Ledger, ops: seq<Op>, i: nat)
    requires i < |ops|
    ensures Run(s, ops[..i + 1]) == Run(Apply(s, ops[0]), ops[1..][..i])
  {
    assert ops[..i + 1][1..] == ops[1..][..i];
  }

  /** While a demand waits, every grant goes to a strictly older ticket; a holder that arrived
      later with no earlier first-seen time can never pass it. */
  lemma {:induction false} NoOvertaking(s: Ledger, ops: seq<Op>, h: Holder, i: nat)
    requires Inv(s) && KeepsWaiting(s, ops, h)
    requires i < |ops| && IsGrant(Run(s, ops[..i]), ops[i])
    ensures var k := ops[i].holder; var after := Run(s, ops[..i + 1]);
      && k != h && k in after.demands
      && TicketBefore(after.demands[k], s.demands[h])
      && (k !in s.demands ==> after.demands[k].firstSeen < s.demands[h].firstSeen)
    decreases i
  {
    var s' := Apply(s, ops[0]);
    RunOfPrefix(s, ops, i);
    if i == 0 {
      assert ops[..0] == [] && ops[1..][..0] == [];
      GrantPassesNobody(s, ops[0], h);
    } else {
      RunOfPrefix(s, ops, i - 1);
      StepRespects(s, ops[0]);
      assert Moves(CellOf(s, h), CellOf(s', h));
      NoOvertaking(s', ops[1..], h, i - 1);
      var k := ops[i].holder;
      if k !in s.demands && k in s'.demands {
        NewTicketIsLast(s, ops[0], k, h);
        TicketsAreForever(s', ops[1..][..i], k);
      }
    }
  }
}
