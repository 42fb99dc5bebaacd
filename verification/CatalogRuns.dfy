/** What garbage collection guarantees over every run of the catalog. */
module CatalogRuns {
  import opened Common
  import opened TextOrder
  import opened Catalog

  datatype Call =
    | UpsertCall(item: StorageObject)
    | PlanCall(scope: string, planPurgeAt: nat, createdAt: nat, planned: Result<Plan, CatalogError>)
    | ExecuteCall(planId: string, digest: string, confirmed: bool, purgeAt: nat, checkAt: nat)

  ghost predicate Next(digest: seq<Candidate> -> string, s: CatalogState, call: Call, s': CatalogState) {
    match call
    case UpsertCall(item) => s' == Upsert(s, item).0
    case PlanCall(scope, purgeAt, createdAt, planned) => Planned(digest, s, scope, purgeAt, createdAt, s', planned)
    case ExecuteCall(planId, d, confirmed, purgeAt, checkAt) => s' == Execute(s, planId, d, confirmed, purgeAt, checkAt).0
  }

  /** The states a run goes through; it may start from any well-formed catalog. */
  datatype Run = Run(states: seq<CatalogState>, calls: seq<Call>)

  /** A name that the first `bound` plans were given. */
  ghost predicate IsIssued(id: string, bound: nat) {
    exists n: nat :: n <= bound && id == PlanName(n)
  }

  ghost predicate WellFormed(s: CatalogState) {
    && s.version <= U64_MAX && s.nextPlanId <= U64_MAX
    && (forall id :: id in s.plans ==> IsIssued(id, s.nextPlanId))
    && |s.objects| <= MAX_CATALOG_OBJECTS && |s.plans| <= MAX_RETAINED_PLANS
    && forall id :: id in s.objects ==> s.objects[id].id == id && s.objects[id].resourceVersion <= s.version
  }

  ghost predicate IsRun(digest: seq<Candidate> -> string, run: Run) {
    && |run.states| == |run.calls| + 1 && WellFormed(run.states[0])
    && forall i :: 0 <= i < |run.calls| ==> Next(digest, run.states[i], run.calls[i], run.states[i + 1])
  }

  // ---- Well-formed catalogs --------------------------------------------------------------

  lemma SubsetIsSmaller<T>(a: set<T>, b: set<T>)
    requires a <= b
    ensures |a| <= |b|
  {
    assert b == a + (b - a);
  }

  lemma PurgingShrinks(plans: map<string, Plan>, now: nat)
    ensures |Purged(plans, now)| <= |plans|
  {
    assert Purged(plans, now).Keys <= plans.Keys;
    SubsetIsSmaller(Purged(plans, now).Keys, plans.Keys);
  }

  lemma InsertingKeepsSize<V>(m: map<string, V>, id: string, v: V)
    ensures |m[id := v]| == |m| + (if id in m then 0 else 1)
  {
    assert m[id := v].Keys == m.Keys + {id};
    assert id in m ==> m.Keys + {id} == m.Keys;
  }

  lemma UpsertKeepsWellFormed(s: CatalogState, item: StorageObject)
    requires WellFormed(s)
    ensures WellFormed(Upsert(s, item).0)
  {
    InsertingKeepsSize(s.objects, item.id, item.(resourceVersion := Bump(s.version)));
  }

  lemma PlanKeepsWellFormed(digest: seq<Candidate> -> string, s: CatalogState, scope: string, purgeAt: nat, createdAt: nat,
                            s': CatalogState, r: Result<Plan, CatalogError>)
    requires WellFormed(s) && Planned(digest, s, scope, purgeAt, createdAt, s', r)
    ensures WellFormed(s')
  {
    PurgingShrinks(s.plans, purgeAt);
  }

  /** Execution only takes objects and plans away. */
  ghost predicate Shrinks(s: CatalogState, s': CatalogState) {
    && s.version <= s'.version <= Bump(s.version) && s'.nextPlanId == s.nextPlanId
    && s'.objects.Keys <= s.objects.Keys && (forall id :: id in s'.objects ==> s'.objects[id] == s.objects[id])
    && s'.plans.Keys <= s.plans.Keys && (forall id :: id in s'.plans ==> s'.plans[id] == s.plans[id])
  }

  lemma ExecuteShrinks(s: CatalogState, planId: string, d: string, confirmed: bool, purgeAt: nat, checkAt: nat)
    ensures Shrinks(s, Execute(s, planId, d, confirmed, purgeAt, checkAt).0)
  {
  }

  lemma ShrinkingKeepsWellFormed(s: CatalogState, s': CatalogState)
    requires WellFormed(s) && Shrinks(s, s')
    ensures WellFormed(s')
  {
    SubsetIsSmaller(s'.objects.Keys, s.objects.Keys);
    SubsetIsSmaller(s'.plans.Keys, s.plans.Keys);
  }

  lemma {:induction false} RunIsWellFormed(digest: seq<Candidate> -> string, run: Run, i: nat)
    requires IsRun(digest, run) && i < |run.states|
    ensures WellFormed(run.states[i])
    decreases i
  {
    if i > 0 {
      RunIsWellFormed(digest, run, i - 1);
      var s := run.states[i - 1];
      match run.calls[i - 1]
      case UpsertCall(item) => UpsertKeepsWellFormed(s, item);
      case PlanCall(scope, purgeAt, createdAt, planned) =>
        PlanKeepsWellFormed(digest, s, scope, purgeAt, createdAt, run.states[i], planned);
      case ExecuteCall(planId, d, confirmed, purgeAt, checkAt) =>
        ExecuteShrinks(s, planId, d, confirmed, purgeAt, checkAt);
        ShrinkingKeepsWellFormed(s, run.states[i]);
    }
  }

  /** The candidate budget never stops a plan: the object budget is reached first. */
  lemma PlanningNeverExhausts(digest: seq<Candidate> -> string, run: Run, i: nat)
    requires IsRun(digest, run) && i < |run.calls| && run.calls[i].PlanCall?
    ensures run.calls[i].planned.Ok?
  {
    RunIsWellFormed(digest, run, i);
    assert Next(digest, run.states[i], run.calls[i], run.states[i + 1]);
  }

  // ---- Versions are never reused ---------------------------------------------------------

  /** An object that carries an old version has not been touched since that version was current.
      Only a saturated counter gives the same number twice. */
  ghost predicate Follows(s: CatalogState, s': CatalogState) {
    && s.version <= s'.version && s.nextPlanId <= s'.nextPlanId
    && (forall id :: id in s'.objects && s'.objects[id].resourceVersion <= s.version
                     && s'.objects[id].resourceVersion < U64_MAX ==>
          id in s.objects && s.objects[id] == s'.objects[id])
  }

  lemma FollowsIsTransitive(a: CatalogState, b: CatalogState, c: CatalogState)
    requires Follows(a, b) && Follows(b, c)
    ensures Follows(a, c)
  {
  }

  lemma StepFollows(digest: seq<Candidate> -> string, s: CatalogState, call: Call, s': CatalogState)
    requires Next(digest, s, call, s')
    ensures Follows(s, s')
  {
    if call.ExecuteCall? {
      ExecuteShrinks(s, call.planId, call.digest, call.confirmed, call.purgeAt, call.checkAt);
    }
  }

  lemma RunStepFollows(digest: seq<Candidate> -> string, run: Run, i: nat)
    requires IsRun(digest, run) && i < |run.calls|
    ensures Follows(run.states[i], run.states[i + 1])
  {
    StepFollows(digest, run.states[i], run.calls[i], run.states[i + 1]);
  }

  ghost predicate FollowsAt(states: seq<CatalogState>, k: nat) {
    k + 1 < |states| && Follows(states[k], states[k + 1])
  }

  lemma {:induction false} ChainFollows(states: seq<CatalogState>, i: nat, j: nat)
    requires i <= j < |states| && forall k :: i <= k < j ==> FollowsAt(states, k)
    ensures Follows(states[i], states[j])
    decreases j - i
  {
    if i < j {
      ChainFollows(states, i, j - 1);
      assert FollowsAt(states, j - 1);
      FollowsIsTransitive(states[i], states[j - 1], states[j]);
    }
  }

  lemma RunFollows(digest: seq<Candidate> -> string, run: Run, i: nat, j: nat)
    requires IsRun(digest, run) && i <= j < |run.states|
    ensures Follows(run.states[i], run.states[j])
  {
    forall k | i <= k < j
      ensures FollowsAt(run.states, k)
    {
      RunStepFollows(digest, run, k);
    }
    ChainFollows(run.states, i, j);
  }

  // ---- Plan names ------------------------------------------------------------------------

  /** The call made a plan under the name `id`. */
  predicate Issues(call: Call, id: string) {
    call.PlanCall? && call.planned.Ok? && call.planned.value.planId == id
  }

  /** No call after `i` and before `j` gives the name of the plan to another one. */
  predicate NotReissued(run: Run, i: nat, j: nat, plan: Plan) {
    forall k :: i < k < j && k < |run.calls| ==> !Issues(run.calls[k], plan.planId)
  }

  ghost predicate Reviewed(run: Run, i: nat, plan: Plan) {
    i < |run.calls| && i < |run.states| && run.calls[i].PlanCall? && run.calls[i].planned == Ok(plan)
  }

  /** While the plan counter has room, names are never given twice. */
  lemma NamesAreNotReissued(digest: seq<Candidate> -> string, run: Run, i: nat, j: nat, plan: Plan)
    requires IsRun(digest, run) && Reviewed(run, i, plan) && Bump(run.states[i].nextPlanId) < U64_MAX
    ensures NotReissued(run, i, j, plan)
  {
    assert Next(digest, run.states[i], run.calls[i], run.states[i + 1]);
    forall k | i < k < j && k < |run.calls|
      ensures !Issues(run.calls[k], plan.planId)
    {
      RunFollows(digest, run, i + 1, k);
      assert Next(digest, run.states[k], run.calls[k], run.states[k + 1]);
      if Issues(run.calls[k], plan.planId) {
        PlanNamesDiffer(Bump(run.states[i].nextPlanId), Bump(run.states[k].nextPlanId));
        assert false;
      }
    }
  }

  /** Two plans in a row get the same name if and only if the counter saturates. */
  lemma NextNameRepeatsIff(
      digest: seq<Candidate> -> string, s: CatalogState, s': CatalogState, s'': CatalogState, first: Call, second: Call)
    requires WellFormed(s) && Next(digest, s, first, s') && Next(digest, s', second, s'')
    requires first.PlanCall? && first.planned.Ok? && second.PlanCall? && second.planned.Ok?
    ensures first.planned.value.planId == second.planned.value.planId <==> Bump(s.nextPlanId) == U64_MAX
  {
    var m, n := Bump(s.nextPlanId), Bump(Bump(s.nextPlanId));
    assert first.planned.value.planId == PlanName(m) && second.planned.value.planId == PlanName(n);
    if PlanName(m) == PlanName(n) { PlanNamesDiffer(m, n); }
  }

  lemma OnlyPlanIsKept(plans: map<string, Plan>, plan: Plan)
    requires plans.Keys <= {plan.planId}
    ensures KeepsLatest(plans[plan.planId := plan], map[plan.planId := plan])
  {
    assert plans[plan.planId := plan] == map[plan.planId := plan];
  }

  /** At the maximal plan counter a second plan, over another scope, takes the name of the first, so
      what is retained under that name is not what was reviewed. */
  lemma SaturatedNameIsReissued(digest: seq<Candidate> -> string, top: nat)
    requires top == U64_MAX
    ensures var item := StorageObject("x", "cache", "s", "a", 0, None, false, 1, 0);
      var s := CatalogState(1, top, map["x" := item], map[]); var cs := [CandidateOf(item)];
      var first := Plan(PlanName(top), digest(cs), cs, 0, PLAN_TTL);
      var second := Plan(PlanName(top), digest([]), [], 0, PLAN_TTL);
      && Planned(digest, s, "s", 0, 0, s.(plans := map[first.planId := first]), Ok(first))
      && Planned(digest, s.(plans := map[first.planId := first]), "t", 0, 0, s.(plans := map[second.planId := second]), Ok(second))
      && first.planId == second.planId && first != second
  {
    var item := StorageObject("x", "cache", "s", "a", 0, None, false, 1, 0);
    var s := CatalogState(1, top, map["x" := item], map[]);
    var cs := [CandidateOf(item)];
    var first := Plan(PlanName(top), digest(cs), cs, 0, PLAN_TTL);
    var second := Plan(PlanName(top), digest([]), [], 0, PLAN_TTL);
    assert Names(cs, "x") by { assert cs[0].objectId == "x"; }
    assert IsCandidateList(s.objects, s.objects.Keys, "s", cs);
    assert IsCandidateList(s.objects, s.objects.Keys, "t", []) by { assert "s" != "t"; }
    OnlyPlanIsKept(Purged(s.plans, 0), first);
    OnlyPlanIsKept(Purged(map[first.planId := first], 0), second);
  }

  lemma StepKeepsPlan(digest: seq<Candidate> -> string, s: CatalogState, call: Call, s': CatalogState, id: string)
    requires Next(digest, s, call, s') && !Issues(call, id) && id in s'.plans
    ensures id in s.plans && s.plans[id] == s'.plans[id]
  {
    if call.ExecuteCall? {
      ExecuteShrinks(s, call.planId, call.digest, call.confirmed, call.purgeAt, call.checkAt);
    }
  }

  /** While its name is not given to another, what is retained under it is the reviewed plan. */
  lemma {:induction false} RetainedPlanIsReviewed(digest: seq<Candidate> -> string, run: Run, i: nat, j: nat, plan: Plan)
    requires IsRun(digest, run) && i < j < |run.states| && Reviewed(run, i, plan) && NotReissued(run, i, j, plan)
    requires plan.planId in run.states[j].plans
    ensures run.states[j].plans[plan.planId] == plan
    decreases j
  {
    assert Next(digest, run.states[j - 1], run.calls[j - 1], run.states[j]);
    if j > i + 1 {
      StepKeepsPlan(digest, run.states[j - 1], run.calls[j - 1], run.states[j], plan.planId);
      RetainedPlanIsReviewed(digest, run, i, j - 1, plan);
    }
  }

  // ---- What upserts and plans mean -------------------------------------------------------

  /** An upsert is accepted exactly with an id, an owner and a scope, for a known object or below the
      object budget; the object is then stored as given, under the next version. */
  lemma UpsertMeans(s: CatalogState, item: StorageObject)
    ensures var (s', r) := Upsert(s, item);
      && (r.Ok? <==> item.id != "" && item.owner != "" && item.scope != "" && (item.id in s.objects || |s.objects| < 100_000))
      && (r.Err? ==> s' == s)
      && (r.Ok? ==>
            && r.value == (if s.version < U64_MAX then s.version + 1 else s.version)
            && s' == s.(version := r.value, objects := s.objects[item.id := item.(resourceVersion := r.value)]))
  {
  }

  /** A plan lists exactly the inactive objects of its scope, with their versions and sizes, and is
      good for 900 seconds. */
  lemma PlanMeans(digest: seq<Candidate> -> string, s: CatalogState, scope: string, purgeAt: nat, createdAt: nat,
                  s': CatalogState, plan: Plan, id: string)
    requires WellFormed(s) && Planned(digest, s, scope, purgeAt, createdAt, s', Ok(plan))
    ensures (exists i :: 0 <= i < |plan.candidates| && plan.candidates[i].objectId == id) <==>
      id in s.objects && s.objects[id].scope == scope && !s.objects[id].active
    ensures forall i :: 0 <= i < |plan.candidates| && plan.candidates[i].objectId == id ==>
      id in s.objects && plan.candidates[i] == Candidate(id, s.objects[id].resourceVersion, s.objects[id].physicalBytes)
    ensures plan.createdAt == createdAt && plan.expiresAt == createdAt + 900_000_000_000 && plan.digest == digest(plan.candidates)
    ensures s'.objects == s.objects && s'.version == s.version
  {
    if id in s.objects && s.objects[id].scope == scope && !s.objects[id].active {
      assert Names(plan.candidates, id);
    }
  }

  /** Of the plans before, the new one drops only expired ones and, if there are too many, the
      oldest by time and then name. */
  lemma PlanRetention(digest: seq<Candidate> -> string, s: CatalogState, scope: string, purgeAt: nat, createdAt: nat,
                      s': CatalogState, plan: Plan, out: string, id: string)
    requires Planned(digest, s, scope, purgeAt, createdAt, s', Ok(plan))
    requires out in s.plans && out != plan.planId && out !in s'.plans && s.plans[out].expiresAt >= purgeAt && id in s'.plans
    ensures |s'.plans| == 1_024
    ensures s.plans[out].createdAt < s'.plans[id].createdAt
      || (s.plans[out].createdAt == s'.plans[id].createdAt && Before(s.plans[out].planId, s'.plans[id].planId))
  {
    var all := Purged(s.plans, purgeAt)[plan.planId := plan];
    assert out in all && out !in s'.plans && id in all;
    assert |s'.plans| < |all| by {
      assert s'.plans.Keys <= all.Keys - {out};
      SubsetIsSmaller(s'.plans.Keys, all.Keys - {out});
      assert |all.Keys| == |all| && |s'.plans.Keys| == |s'.plans|;
    }
  }

  /** Expired plans are gone after every plan. */
  lemma ExpiredPlansGo(digest: seq<Candidate> -> string, s: CatalogState, scope: string, purgeAt: nat, createdAt: nat,
                       s': CatalogState, plan: Plan, out: string)
    requires Planned(digest, s, scope, purgeAt, createdAt, s', Ok(plan))
    requires out in s.plans && out != plan.planId && s.plans[out].expiresAt < purgeAt
    ensures out !in s'.plans
  {
  }

  // ---- Execution -------------------------------------------------------------------------

  /** Nothing stands in the way of the retained plan `planId`. */
  ghost predicate Executable(s: CatalogState, planId: string, d: string, purgeAt: nat, checkAt: nat) {
    && planId in s.plans && s.plans[planId].digest == d
    && s.plans[planId].expiresAt >= purgeAt && s.plans[planId].expiresAt >= checkAt
    && forall i :: 0 <= i < |s.plans[planId].candidates| ==> Unchanged(s.objects, s.plans[planId].candidates[i])
  }

  /** Execution succeeds exactly for a confirmed, retained, unexpired plan with the reviewed digest
      whose every candidate is still there, inactive and at its planned version. It then removes
      the candidates and nothing else; a failure removes nothing. */
  lemma ExecuteIsAllOrNothing(s: CatalogState, planId: string, d: string, confirmed: bool, purgeAt: nat, checkAt: nat)
    ensures var (s', r) := Execute(s, planId, d, confirmed, purgeAt, checkAt);
      && (r.Ok? <==> confirmed && Executable(s, planId, d, purgeAt, checkAt))
      && s'.objects == (if r.Ok? then s.objects - NamedBy(s.plans[planId].candidates) else s.objects)
  {
    if planId in s.plans { NoObstacle(s.objects, s.plans[planId].candidates); }
  }

  lemma {:induction false} ObstacleMeans(objects: map<string, StorageObject>, cs: seq<Candidate>)
    ensures Obstacle(objects, cs).Some? ==>
      exists k :: 0 <= k < |cs| && !Unchanged(objects, cs[k]) && (forall i :: 0 <= i < k ==> Unchanged(objects, cs[i]))
        && Obstacle(objects, cs).value
           == (if cs[k].objectId in objects then ObjectChanged(cs[k].objectId) else ObjectDisappeared(cs[k].objectId))
    decreases |cs|
  {
    if cs != [] && Unchanged(objects, cs[0]) && Obstacle(objects, cs).Some? {
      ObstacleMeans(objects, cs[1..]);
      var k :| 0 <= k < |cs[1..]| && !Unchanged(objects, cs[1..][k]) && (forall i :: 0 <= i < k ==> Unchanged(objects, cs[1..][i]))
        && Obstacle(objects, cs).value
           == (if cs[1..][k].objectId in objects then ObjectChanged(cs[1..][k].objectId) else ObjectDisappeared(cs[1..][k].objectId));
      assert cs[1..][k] == cs[k + 1];
      forall i | 0 <= i < k + 1
        ensures Unchanged(objects, cs[i])
      {
        if i > 0 { assert cs[i] == cs[1..][i - 1]; }
      }
    }
  }

  /** Execution in terms of the rows: what it asks of the plan and of every candidate, and the whole
      state it leaves behind. */
  lemma ExecutionAnswers(s: CatalogState, planId: string, d: string, confirmed: bool, purgeAt: nat, checkAt: nat)
    ensures var (s', r) := Execute(s, planId, d, confirmed, purgeAt, checkAt);
      && (r.Ok? <==>
            && confirmed && planId in s.plans && s.plans[planId].digest == d
            && s.plans[planId].expiresAt >= purgeAt && s.plans[planId].expiresAt >= checkAt
            && forall i :: 0 <= i < |s.plans[planId].candidates| ==>
                 var c := s.plans[planId].candidates[i];
                 c.objectId in s.objects && !s.objects[c.objectId].active && s.objects[c.objectId].resourceVersion == c.resourceVersion)
      && s'.nextPlanId == s.nextPlanId
      && (r.Err? ==> s'.objects == s.objects && s'.version == s.version)
      && (r.Ok? ==>
            && s'.version == (if s.version < U64_MAX then s.version + 1 else s.version)
            && forall id :: id in s'.objects <==>
                 id in s.objects && forall i :: 0 <= i < |s.plans[planId].candidates| ==> s.plans[planId].candidates[i].objectId != id)
      && (forall id :: id in s'.objects ==> s'.objects[id] == s.objects[id])
      && (forall id :: id in s'.plans <==> id in s.plans && (confirmed ==> s.plans[id].expiresAt >= purgeAt))
      && (forall id :: id in s'.plans ==> s'.plans[id] == s.plans[id])
  {
    ExecuteIsAllOrNothing(s, planId, d, confirmed, purgeAt, checkAt);
    if planId in s.plans {
      forall i | 0 <= i < |s.plans[planId].candidates|
        ensures var c := s.plans[planId].candidates[i];
          Unchanged(s.objects, c) <==>
            c.objectId in s.objects && !s.objects[c.objectId].active && s.objects[c.objectId].resourceVersion == c.resourceVersion
      {
      }
    }
  }

  /** Why an execution fails, in the order of the checks; an obstacle is the first candidate that
      disappeared, became active or changed. */
  lemma FailedExecutionMeans(s: CatalogState, planId: string, d: string, confirmed: bool, purgeAt: nat, checkAt: nat)
    ensures var r := Execute(s, planId, d, confirmed, purgeAt, checkAt).1;
      var missing := planId !in s.plans || s.plans[planId].expiresAt < purgeAt;
      && (r == Err(Unconfirmed) <==> !confirmed)
      && (r == Err(PlanMissing) <==> confirmed && missing)
      && (r == Err(DigestChanged) <==> confirmed && !missing && s.plans[planId].digest != d)
      && (r == Err(PlanExpired) <==> confirmed && !missing && s.plans[planId].digest == d && s.plans[planId].expiresAt < checkAt)
  {
    if planId in s.plans { ObstacleMeans(s.objects, s.plans[planId].candidates); }
  }

  lemma {:induction false} AscendingNamesEachOnce(cs: seq<Candidate>)
    requires Ascending(cs)
    ensures |NamedBy(cs)| == |cs|
  {
    if cs != [] {
      var n := |cs| - 1;
      AscendingNamesEachOnce(cs[..n]);
      forall i | 0 <= i < n
        ensures cs[i].objectId != cs[n].objectId
      {
        BeforeIsAsymmetric(cs[i].objectId, cs[n].objectId);
      }
      assert NamedBy(cs) == NamedBy(cs[..n]) + {cs[n].objectId};
    }
  }

  ghost function ExecuteResult(s: CatalogState, call: Call): Result<nat, CatalogError>
    requires call.ExecuteCall?
  {
    Execute(s, call.planId, call.digest, call.confirmed, call.purgeAt, call.checkAt).1
  }

  ghost predicate Executes(run: Run, j: nat, plan: Plan) {
    && j < |run.calls| && j < |run.states| && run.calls[j].ExecuteCall? && run.calls[j].planId == plan.planId
    && ExecuteResult(run.states[j], run.calls[j]).Ok?
  }

  /** A candidate that is unchanged in a later state is the object its planner saw. */
  lemma UnchangedIsIdentical(digest: seq<Candidate> -> string, run: Run, i: nat, j: nat, plan: Plan, c: Candidate)
    requires IsRun(digest, run) && i <= j < |run.states| && Reviewed(run, i, plan)
    requires c in plan.candidates && c.resourceVersion < U64_MAX && Unchanged(run.states[j].objects, c)
    ensures c.objectId in run.states[i].objects
    ensures run.states[j].objects[c.objectId] == run.states[i].objects[c.objectId]
    ensures IsCollectable(run.states[i].objects[c.objectId], run.calls[i].scope)
  {
    RunIsWellFormed(digest, run, i);
    assert Next(digest, run.states[i], run.calls[i], run.states[i + 1]);
    RunFollows(digest, run, i, j);
  }

  lemma ExecutionCounts(s: CatalogState, planId: string, d: string, confirmed: bool, purgeAt: nat, checkAt: nat)
    requires Execute(s, planId, d, confirmed, purgeAt, checkAt).1.Ok?
    requires planId in s.plans && Ascending(s.plans[planId].candidates)
    ensures Execute(s, planId, d, confirmed, purgeAt, checkAt).1 == Ok(|s.plans[planId].candidates|)
  {
    var cs := s.plans[planId].candidates;
    ExecuteIsAllOrNothing(s, planId, d, confirmed, purgeAt, checkAt);
    AscendingNamesEachOnce(cs);
    RemovingShrinks(s.objects, NamedBy(cs));
    assert forall i :: 0 <= i < |cs| ==> Unchanged(s.objects, cs[i]);
    assert s.objects.Keys * NamedBy(cs) == NamedBy(cs);
  }

  lemma ExecutedPlan(digest: seq<Candidate> -> string, run: Run, i: nat, j: nat, plan: Plan)
    requires IsRun(digest, run) && i < j && Reviewed(run, i, plan) && Executes(run, j, plan) && NotReissued(run, i, j, plan)
    ensures plan.planId in run.states[j].plans && run.states[j].plans[plan.planId] == plan
    ensures forall c :: c in plan.candidates ==> Unchanged(run.states[j].objects, c)
    ensures run.states[j + 1].objects == run.states[j].objects - NamedBy(plan.candidates)
  {
    var s, call := run.states[j], run.calls[j];
    ExecuteIsAllOrNothing(s, call.planId, call.digest, call.confirmed, call.purgeAt, call.checkAt);
    RetainedPlanIsReviewed(digest, run, i, j, plan);
    assert Next(digest, s, call, run.states[j + 1]);
    forall c | c in plan.candidates
      ensures Unchanged(s.objects, c)
    {
      var k :| 0 <= k < |plan.candidates| && plan.candidates[k] == c;
    }
  }

  /** A successful execution removes exactly the planned objects, all inactive, and reports their
      number, whatever happened in between. Each is identical to what its planner saw, unless the
      planner saw a saturated version. */
  lemma ExecutionRemovesWhatWasReviewed(digest: seq<Candidate> -> string, run: Run, i: nat, j: nat, plan: Plan)
    requires IsRun(digest, run) && i < j && Reviewed(run, i, plan) && Executes(run, j, plan) && NotReissued(run, i, j, plan)
    ensures run.states[j + 1].objects == run.states[j].objects - NamedBy(plan.candidates)
    ensures forall c :: c in plan.candidates ==>
      && c.objectId in run.states[j].objects && !run.states[j].objects[c.objectId].active
      && (c.resourceVersion < U64_MAX ==>
            && c.objectId in run.states[i].objects
            && run.states[j].objects[c.objectId] == run.states[i].objects[c.objectId]
            && IsCollectable(run.states[i].objects[c.objectId], run.calls[i].scope))
    ensures ExecuteResult(run.states[j], run.calls[j]) == Ok(|plan.candidates|)
  {
    var call := run.calls[j];
    ExecutedPlan(digest, run, i, j, plan);
    forall c | c in plan.candidates && c.resourceVersion < U64_MAX
      ensures c.objectId in run.states[i].objects
      ensures run.states[j].objects[c.objectId] == run.states[i].objects[c.objectId]
      ensures IsCollectable(run.states[i].objects[c.objectId], run.calls[i].scope)
    {
      UnchangedIsIdentical(digest, run, i, j, plan, c);
    }
    assert Next(digest, run.states[i], run.calls[i], run.states[i + 1]);
    ExecutionCounts(run.states[j], call.planId, call.digest, call.confirmed, call.purgeAt, call.checkAt);
  }

  /** An object that was collected never again looks like its planned self. */
  lemma CollectedStaysCollected(digest: seq<Candidate> -> string, run: Run, i: nat, j: nat, k: nat, plan: Plan, c: Candidate)
    requires IsRun(digest, run) && i < j < k < |run.states| && Reviewed(run, i, plan) && Executes(run, j, plan)
    requires NotReissued(run, i, j, plan) && c in plan.candidates && c.resourceVersion < U64_MAX
    ensures !Unchanged(run.states[k].objects, c)
  {
    ExecutedPlan(digest, run, i, j, plan);
    assert c.objectId in NamedBy(plan.candidates);
    RunIsWellFormed(digest, run, i);
    assert Next(digest, run.states[i], run.calls[i], run.states[i + 1]);
    RunFollows(digest, run, i, j + 1);
    RunFollows(digest, run, j + 1, k);
  }

  /** A plan is executed at most once in any run, unless it is empty or names only objects at a
      saturated version. */
  lemma ExecutesAtMostOnce(digest: seq<Candidate> -> string, run: Run, i: nat, j: nat, k: nat, plan: Plan)
    requires IsRun(digest, run) && i < j < k && Reviewed(run, i, plan) && NotReissued(run, i, k, plan)
    requires Executes(run, j, plan) && Executes(run, k, plan)
    ensures forall c :: c in plan.candidates ==> c.resourceVersion == U64_MAX
    ensures run.states[i].version < U64_MAX ==> plan.candidates == []
  {
    ExecutedPlan(digest, run, i, k, plan);
    RunIsWellFormed(digest, run, i);
    assert Next(digest, run.states[i], run.calls[i], run.states[i + 1]);
    forall c | c in plan.candidates
      ensures c.resourceVersion == U64_MAX <= run.states[i].version
    {
      if c.resourceVersion < U64_MAX {
        CollectedStaysCollected(digest, run, i, j, k, plan, c);
        assert false;
      }
    }
    assert plan.candidates != [] ==> plan.candidates[0] in plan.candidates;
  }

  /** An upsert of a planned object fences the plan off. It fails to do so exactly when the new
      object is inactive and both the counter and the planned version are saturated. */
  lemma UpsertFencesThePlan(s: CatalogState, item: StorageObject, planId: string, d: string, purgeAt: nat, checkAt: nat,
                            k: nat)
    requires WellFormed(s) && Executable(s, planId, d, purgeAt, checkAt)
    requires k < |s.plans[planId].candidates| && s.plans[planId].candidates[k].objectId == item.id
    requires item.id != "" && item.owner != "" && item.scope != ""
    requires Ascending(s.plans[planId].candidates)
    ensures Executable(Upsert(s, item).0, planId, d, purgeAt, checkAt) <==>
      !item.active && s.version == U64_MAX == s.plans[planId].candidates[k].resourceVersion
  {
    var cs := s.plans[planId].candidates;
    var s' := Upsert(s, item).0;
    forall i | 0 <= i < |cs| && i != k
      ensures Unchanged(s'.objects, cs[i])
    {
      BeforeIsAsymmetric(cs[i].objectId, cs[k].objectId);
      assert Unchanged(s.objects, cs[i]);
    }
    assert Unchanged(s.objects, cs[k]);
    assert Unchanged(s'.objects, cs[k]) <==> !item.active && Bump(s.version) == cs[k].resourceVersion;
  }

  /** Planned, replaced and collected, all at a saturated version: what is removed is not what was
      reviewed. */
  lemma SaturatedVersionDefeatsReview(digest: seq<Candidate> -> string)
    ensures var before := StorageObject("x", "cache", "s", "a", 0, None, false, U64_MAX, 0);
      var after := before.(owner := "b");
      var s := CatalogState(U64_MAX, 0, map["x" := before], map[]);
      var cs := [CandidateOf(before)]; var plan := Plan(PlanName(1), digest(cs), cs, 0, PLAN_TTL);
      var planned := s.(nextPlanId := 1, plans := map[plan.planId := plan]);
      && Planned(digest, s, "s", 0, 0, planned, Ok(plan))
      && Upsert(planned, after) == (planned.(objects := map["x" := after]), Ok(U64_MAX))
      && Execute(Upsert(planned, after).0, plan.planId, plan.digest, true, 0, 0).1.Ok?
      && Execute(Upsert(planned, after).0, plan.planId, plan.digest, true, 0, 0).0.objects == map[]
  {
    var before := StorageObject("x", "cache", "s", "a", 0, None, false, U64_MAX, 0);
    var after := before.(owner := "b");
    var s := CatalogState(U64_MAX, 0, map["x" := before], map[]);
    var cs := [CandidateOf(before)];
    var plan := Plan(PlanName(1), digest(cs), cs, 0, PLAN_TTL);
    var planned := s.(nextPlanId := 1, plans := map[plan.planId := plan]);
    assert Names(cs, "x") by { assert cs[0].objectId == "x"; }
    assert Purged(s.plans, 0)[plan.planId := plan] == planned.plans;
    var replaced := Upsert(planned, after).0;
    assert planned.objects["x" := after] == map["x" := after];
    assert Purged(replaced.plans, 0) == replaced.plans;
    ExecuteIsAllOrNothing(replaced, plan.planId, plan.digest, true, 0, 0);
    assert replaced.objects - NamedBy(cs) == map[] by { assert cs[0].objectId in NamedBy(cs); }
  }

  // ---- Retention -------------------------------------------------------------------------

  lemma SomethingIsDropped(kept: map<string, Plan>, all: map<string, Plan>) returns (out: string)
    requires |kept| < |all|
    ensures out in all && out !in kept
  {
    if all.Keys <= kept.Keys {
      SubsetIsSmaller(all.Keys, kept.Keys);
      assert false;
    }
    out :| out in all && out !in kept;
  }

  lemma SameSizeIsSame<T>(a: set<T>, b: set<T>)
    requires a <= b && |b| <= |a|
    ensures a == b
  {
    assert |b| == |a| + |b - a|;
  }

  /** The plans among which the latest are kept: the unexpired ones and the new one. */
  function Contenders(s: CatalogState, purgeAt: nat, plan: Plan): map<string, Plan> {
    Purged(s.plans, purgeAt)[plan.planId := plan]
  }

  lemma ContendersCounted(s: CatalogState, purgeAt: nat, plan: Plan)
    requires WellFormed(s)
    ensures |Contenders(s, purgeAt, plan)| == |Purged(s.plans, purgeAt)| + (if plan.planId in Purged(s.plans, purgeAt) then 0 else 1)
    ensures |Contenders(s, purgeAt, plan)| <= MAX_RETAINED_PLANS + 1
    ensures plan.planId in Purged(s.plans, purgeAt) ==> |Contenders(s, purgeAt, plan)| <= MAX_RETAINED_PLANS
  {
    PurgingShrinks(s.plans, purgeAt);
    InsertingKeepsSize(Purged(s.plans, purgeAt), plan.planId, plan);
  }

  /** In a full catalog the new plan is kept exactly when some other plan is earlier. */
  lemma LatestPlansWin(purged: map<string, Plan>, plan: Plan, kept: map<string, Plan>)
    requires plan.planId !in purged && |purged| == MAX_RETAINED_PLANS && KeepsLatest(purged[plan.planId := plan], kept)
    ensures plan.planId in kept <==> exists id :: id in purged && Earlier(purged[id], plan)
  {
    var all := purged[plan.planId := plan];
    InsertingKeepsSize(purged, plan.planId, plan);
    if plan.planId in kept {
      var out := SomethingIsDropped(kept, all);
      assert out in purged && Earlier(purged[out], plan);
    } else {
      assert |kept.Keys| == |kept| && |purged.Keys| == |purged|;
      SameSizeIsSame(kept.Keys, purged.Keys);
      forall id | id in purged
        ensures !Earlier(purged[id], plan)
      {
        assert Earlier(plan, purged[id]);
        BeforeIsAsymmetric(plan.planId, purged[id].planId);
      }
    }
  }

  /** A new plan is retained exactly when there is room for it or some other plan is earlier than
      it: with a clock that stands still or goes back, a full catalog drops the very plan it
      returns. */
  lemma NewPlanIsRetainedIff(digest: seq<Candidate> -> string, s: CatalogState, scope: string, purgeAt: nat, createdAt: nat,
                             s': CatalogState, plan: Plan)
    requires WellFormed(s) && Planned(digest, s, scope, purgeAt, createdAt, s', Ok(plan))
    ensures plan.planId in s'.plans <==>
      || |Contenders(s, purgeAt, plan)| <= MAX_RETAINED_PLANS
      || exists id :: id in Purged(s.plans, purgeAt) && Earlier(s.plans[id], plan)
  {
    var purged, all := Purged(s.plans, purgeAt), Contenders(s, purgeAt, plan);
    ContendersCounted(s, purgeAt, plan);
    if |all| <= MAX_RETAINED_PLANS {
      assert |s'.plans.Keys| == |s'.plans| && |all.Keys| == |all|;
      SameSizeIsSame(s'.plans.Keys, all.Keys);
    } else {
      LatestPlansWin(purged, plan, s'.plans);
    }
  }

  /** A new plan that is retained can be executed at once; its name is new while the counter has
      room. */
  lemma NewPlanIsExecutable(digest: seq<Candidate> -> string, s: CatalogState, scope: string, purgeAt: nat, createdAt: nat,
                            s': CatalogState, plan: Plan)
    requires WellFormed(s) && Planned(digest, s, scope, purgeAt, createdAt, s', Ok(plan))
    ensures plan.planId in s'.plans ==> Executable(s', plan.planId, plan.digest, plan.expiresAt, plan.expiresAt)
    ensures s.nextPlanId < U64_MAX ==> plan.planId !in s.plans
  {
    if s.nextPlanId < U64_MAX && plan.planId in s.plans {
      var n: nat :| n <= s.nextPlanId && plan.planId == PlanName(n);
      PlanNamesDiffer(n, Bump(s.nextPlanId));
      assert false;
    }
  }

  /** The plans `gc-1` to `gc-n`, all made at time 1. */
  function PlansAtOne(digest: seq<Candidate> -> string, n: nat): map<string, Plan> {
    if n == 0 then map[]
    else PlansAtOne(digest, n - 1)[PlanName(n) := Plan(PlanName(n), digest([]), [], 1, 1 + PLAN_TTL)]
  }

  lemma {:induction false} PlansAtOneCounted(digest: seq<Candidate> -> string, n: nat)
    ensures |PlansAtOne(digest, n)| == n
    ensures forall id :: id in PlansAtOne(digest, n) ==>
      IsIssued(id, n) && PlansAtOne(digest, n)[id].createdAt == 1 && PlansAtOne(digest, n)[id].expiresAt == 1 + PLAN_TTL
    ensures forall m: nat :: m > n ==> PlanName(m) !in PlansAtOne(digest, n)
  {
    if n > 0 {
      PlansAtOneCounted(digest, n - 1);
      InsertingKeepsSize(PlansAtOne(digest, n - 1), PlanName(n), Plan(PlanName(n), digest([]), [], 1, 1 + PLAN_TTL));
      forall m: nat | m > n
        ensures PlanName(m) != PlanName(n)
      {
        if PlanName(m) == PlanName(n) { PlanNamesDiffer(m, n); assert false; }
      }
      assert IsIssued(PlanName(n), n);
    }
  }

  lemma EarliestPlanIsDropped(plans: map<string, Plan>, plan: Plan)
    requires |plans| == MAX_RETAINED_PLANS && plan.planId !in plans && forall id :: id in plans ==> Earlier(plan, plans[id])
    ensures KeepsLatest(plans[plan.planId := plan], plans)
  {
    InsertingKeepsSize(plans, plan.planId, plan);
  }

  /** A catalog with `full` plans, as many as it retains, all made at time 1, is asked for a plan at
      time 0: it returns one and does not keep it. */
  lemma FullCatalogDropsItsNewPlan(digest: seq<Candidate> -> string, full: nat)
    requires full == MAX_RETAINED_PLANS
    ensures var s := CatalogState(0, full, map[], PlansAtOne(digest, full));
      var s' := s.(nextPlanId := full + 1);
      var plan := Plan(PlanName(full + 1), digest([]), [], 0, PLAN_TTL);
      && WellFormed(s) && Planned(digest, s, "", 0, 0, s', Ok(plan)) && plan.planId !in s'.plans
  {
    PlansAtOneCounted(digest, full);
    var plans := PlansAtOne(digest, full);
    var plan := Plan(PlanName(full + 1), digest([]), [], 0, PLAN_TTL);
    assert Purged(plans, 0) == plans;
    EarliestPlanIsDropped(plans, plan);
  }
}
