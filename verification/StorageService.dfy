/** The in-memory storage service, whose calls are the steps of the catalog. */
module StorageServiceClass {
  import opened Common
  import opened TextOrder
  import opened Catalog
  import opened CatalogRuns

  // ---- Loops over the ordered tables -----------------------------------------------------

  predicate Keyed(plans: map<string, Plan>) {
    forall id :: id in plans ==> plans[id].planId == id
  }

  lemma EarlierIsTransitive(a: Plan, b: Plan, c: Plan)
    requires Earlier(a, b) && Earlier(b, c)
    ensures Earlier(a, c)
  {
    if a.createdAt == b.createdAt == c.createdAt { BeforeIsTransitive(a.planId, b.planId, c.planId); }
  }

  lemma CandidateListGrows(objects: map<string, StorageObject>, ids: set<string>, scope: string, cs: seq<Candidate>, id: string)
    requires IsCandidateList(objects, ids, scope, cs)
    requires id in objects && objects[id].id == id && IsCollectable(objects[id], scope)
    requires forall i :: 0 <= i < |cs| ==> Before(cs[i].objectId, id)
    ensures IsCandidateList(objects, ids + {id}, scope, cs + [CandidateOf(objects[id])])
  {
    var longer := cs + [CandidateOf(objects[id])];
    assert longer[|cs|].objectId == id;
    forall other | other in ids + {id} && other in objects && IsCollectable(objects[other], scope)
      ensures Names(longer, other)
    {
      if other != id {
        var i :| 0 <= i < |cs| && cs[i].objectId == other;
        assert longer[i].objectId == other;
      }
    }
  }

  /** The dry run: every collectable object of the scope, in key order. */
  method CollectCandidates(objects: map<string, StorageObject>, scope: string) returns (cs: seq<Candidate>)
    requires forall id :: id in objects ==> objects[id].id == id
    ensures IsCandidateList(objects, objects.Keys, scope, cs)
  {
    cs := [];
    var rest := objects.Keys;
    while rest != {}
      invariant rest <= objects.Keys
      invariant IsCandidateList(objects, objects.Keys - rest, scope, cs)
      invariant forall i, id :: 0 <= i < |cs| && id in rest ==> Before(cs[i].objectId, id)
    {
      var id := LeastKey(rest);
      if IsCollectable(objects[id], scope) {
        CandidateListGrows(objects, objects.Keys - rest, scope, cs, id);
        cs := cs + [CandidateOf(objects[id])];
      }
      assert objects.Keys - (rest - {id}) == objects.Keys - rest + {id};
      rest := rest - {id};
    }
    assert objects.Keys - rest == objects.Keys;
  }

  method OldestPlan(plans: map<string, Plan>) returns (oldest: string)
    requires plans.Keys != {} && Keyed(plans)
    ensures oldest in plans && forall id :: id in plans && id != oldest ==> Earlier(plans[oldest], plans[id])
  {
    oldest :| oldest in plans.Keys;
    var rest := plans.Keys - {oldest};
    while rest != {}
      invariant oldest in plans && rest <= plans.Keys
      invariant forall id :: id in plans && id !in rest && id != oldest ==> Earlier(plans[oldest], plans[id])
    {
      var id :| id in rest;
      BeforeIsTotal(oldest, id);
      if Earlier(plans[id], plans[oldest]) {
        forall other | other in plans && other !in rest && other != oldest
          ensures Earlier(plans[id], plans[other])
        {
          EarlierIsTransitive(plans[id], plans[oldest], plans[other]);
        }
        oldest := id;
      }
      rest := rest - {id};
    }
  }

  /** Drop the oldest plans until the rest may be retained. */
  method EvictOldest(plans: map<string, Plan>) returns (kept: map<string, Plan>)
    requires Keyed(plans)
    ensures KeepsLatest(plans, kept)
  {
    kept := plans;
    while |kept| > MAX_RETAINED_PLANS
      invariant forall id :: id in kept ==> id in plans && kept[id] == plans[id]
      invariant Min(|plans|, MAX_RETAINED_PLANS) <= |kept| <= |plans|
      invariant forall out, id :: out in plans && out !in kept && id in kept ==> Earlier(plans[out], plans[id])
      decreases |kept|
    {
      assert |kept.Keys| == |kept|;
      var oldest := OldestPlan(kept);
      assert (kept - {oldest}).Keys == kept.Keys - {oldest} && |(kept - {oldest}).Keys| == |kept - {oldest}|;
      kept := kept - {oldest};
    }
  }

  method FirstObstacle(objects: map<string, StorageObject>, cs: seq<Candidate>) returns (obstacle: Option<CatalogError>)
    ensures obstacle == Obstacle(objects, cs)
  {
    for i := 0 to |cs|
      invariant Obstacle(objects, cs) == Obstacle(objects, cs[i..])
    {
      assert cs[i..][1..] == cs[i + 1..];
      if cs[i].objectId !in objects {
        return Some(ObjectDisappeared(cs[i].objectId));
      }
      if objects[cs[i].objectId].active || objects[cs[i].objectId].resourceVersion != cs[i].resourceVersion {
        return Some(ObjectChanged(cs[i].objectId));
      }
    }
    obstacle := None;
  }

  lemma RemovingOne(objects: map<string, StorageObject>, id: string)
    ensures |objects - {id}| == |objects| - (if id in objects then 1 else 0)
  {
    RemovingShrinks(objects, {id});
    assert objects.Keys * {id} == if id in objects then {id} else {};
  }

  function Left(objects: map<string, StorageObject>, cs: seq<Candidate>): map<string, StorageObject> {
    if cs == [] then objects else Left(objects - {cs[0].objectId}, cs[1..])
  }

  lemma {:induction false} LeftIsUnnamed(objects: map<string, StorageObject>, cs: seq<Candidate>)
    ensures Left(objects, cs) == objects - NamedBy(cs)
    decreases |cs|
  {
    if cs != [] {
      LeftIsUnnamed(objects - {cs[0].objectId}, cs[1..]);
      assert cs == [cs[0]] + cs[1..];
      assert NamedBy(cs) == {cs[0].objectId} + NamedBy(cs[1..]);
    }
  }

  /** Remove the candidates one by one and count those that were there. */
  method RemoveAll(objects: map<string, StorageObject>, cs: seq<Candidate>)
    returns (left: map<string, StorageObject>, removed: nat)
    ensures left == objects - NamedBy(cs) && removed == |objects| - |left|
  {
    left, removed := objects, 0;
    for i := 0 to |cs|
      invariant Left(left, cs[i..]) == Left(objects, cs) && removed == |objects| - |left|
    {
      var id := cs[i].objectId;
      RemovingOne(left, id);
      assert cs[i..][1..] == cs[i + 1..];
      if id in left {
        removed := removed + 1;
      }
      left := left - {id};
    }
    LeftIsUnnamed(objects, cs);
  }

  /** Check the plan, revalidate every candidate, then remove them all. */
  method ExecutePlan(s: CatalogState, planId: string, digest: string, confirmed: bool, purgeAt: nat, checkAt: nat)
    returns (after: CatalogState, r: Result<nat, CatalogError>)
    ensures (after, r) == Execute(s, planId, digest, confirmed, purgeAt, checkAt)
  {
    after := s;
    if !confirmed {
      return after, Err(Unconfirmed);
    }
    after := s.(plans := Purged(s.plans, purgeAt));
    if planId !in after.plans {
      return after, Err(PlanMissing);
    }
    var plan := after.plans[planId];
    if plan.digest != digest {
      return after, Err(DigestChanged);
    }
    if plan.expiresAt < checkAt {
      return after, Err(PlanExpired);
    }
    var obstacle := FirstObstacle(s.objects, plan.candidates);
    if obstacle.Some? {
      return after, Err(obstacle.value);
    }
    var left, removed := RemoveAll(s.objects, plan.candidates);
    return after.(objects := left, version := Bump(s.version)), Ok(removed);
  }

  /** Both tables are keyed by the names their rows carry. */
  ghost predicate IsKeyed(s: CatalogState) {
    Keyed(s.plans) && forall id :: id in s.objects ==> s.objects[id].id == id
  }

  /** What every call keeps: keyed tables, a well-formed catalog if it was one, and that old versions
      still name the objects they were given to. */
  ghost predicate Guarded(s: CatalogState, s': CatalogState) {
    Follows(s, s') && (WellFormed(s) ==> WellFormed(s')) && (IsKeyed(s) ==> IsKeyed(s'))
  }

  lemma StutterGuards(s: CatalogState)
    ensures Guarded(s, s)
  {
  }

  lemma UpsertGuards(s: CatalogState, item: StorageObject)
    ensures Guarded(s, Upsert(s, item).0)
  {
    if WellFormed(s) { UpsertKeepsWellFormed(s, item); }
  }

  lemma PlanGuards(digest: seq<Candidate> -> string, s: CatalogState, scope: string, purgeAt: nat, createdAt: nat,
                   s': CatalogState, r: Result<Plan, CatalogError>)
    requires Planned(digest, s, scope, purgeAt, createdAt, s', r)
    ensures Guarded(s, s')
  {
    if WellFormed(s) { PlanKeepsWellFormed(digest, s, scope, purgeAt, createdAt, s', r); }
  }

  lemma ShrinkingGuards(s: CatalogState, s': CatalogState)
    requires Shrinks(s, s')
    ensures Guarded(s, s')
  {
    if WellFormed(s) { ShrinkingKeepsWellFormed(s, s'); }
  }

  lemma ExecuteGuards(s: CatalogState, planId: string, d: string, confirmed: bool, purgeAt: nat, checkAt: nat)
    ensures Guarded(s, Execute(s, planId, d, confirmed, purgeAt, checkAt).0)
  {
    ExecuteShrinks(s, planId, d, confirmed, purgeAt, checkAt);
    ShrinkingGuards(s, Execute(s, planId, d, confirmed, purgeAt, checkAt).0);
  }

  // ---- The service -----------------------------------------------------------------------

  class StorageService {
    const digest: seq<Candidate> -> string
    const supported: bool
    var state: CatalogState

    ghost predicate Valid()
      reads this
    {
      IsKeyed(state)
    }

    constructor (digest: seq<Candidate> -> string, supported: bool)
      ensures Valid() && state == EMPTY_CATALOG && WellFormed(state) && this.digest == digest && this.supported == supported
    {
      this.digest, this.supported, state := digest, supported, EMPTY_CATALOG;
    }

    method UpsertObject(item: StorageObject) returns (r: Result<nat, CatalogError>)
      requires Valid()
      modifies this
      ensures Valid() && Guarded(old(state), state)
      ensures !supported ==> r == Err(Unsupported) && state == old(state)
      ensures supported ==> (state, r) == Upsert(old(state), item)
    {
      StutterGuards(state);
      UpsertGuards(state, item);
      if !supported {
        return Err(Unsupported);
      }
      if item.id == "" || item.owner == "" || item.scope == "" {
        return Err(InvalidObject);
      }
      if item.id !in state.objects && |state.objects| >= MAX_CATALOG_OBJECTS {
        return Err(ObjectBudget);
      }
      var version := Bump(state.version);
      state := state.(version := version, objects := state.objects[item.id := item.(resourceVersion := version)]);
      r := Ok(version);
    }

    method PlanGc(scope: string, purgeAt: nat, createdAt: nat) returns (r: Result<Plan, CatalogError>)
      requires Valid()
      modifies this
      ensures Valid() && Guarded(old(state), state)
      ensures !supported ==> r == Err(Unsupported) && state == old(state)
      ensures supported ==> Planned(digest, old(state), scope, purgeAt, createdAt, state, r)
    {
      StutterGuards(state);
      if !supported {
        return Err(Unsupported);
      }
      state := state.(plans := Purged(state.plans, purgeAt));
      var candidates := CollectCandidates(state.objects, scope);
      if |candidates| > MAX_PLAN_CANDIDATES {
        AscendingNamesEachOnce(candidates);
        SubsetIsSmaller(NamedBy(candidates), state.objects.Keys);
        assert |state.objects.Keys| == |state.objects|;
        r := Err(CandidateBudget);
      } else {
        var number := Bump(state.nextPlanId);
        var plan := Plan(PlanName(number), digest(candidates), candidates, createdAt, createdAt + PLAN_TTL);
        var kept := EvictOldest(state.plans[plan.planId := plan]);
        state := state.(nextPlanId := number, plans := kept);
        r := Ok(plan);
      }
      PlanGuards(digest, old(state), scope, purgeAt, createdAt, state, r);
    }

    method ExecuteGc(planId: string, planDigest: string, confirmed: bool, purgeAt: nat, checkAt: nat)
      returns (r: Result<nat, CatalogError>)
      requires Valid()
      modifies this
      ensures Valid() && Guarded(old(state), state)
      ensures !supported ==> r == Err(Unsupported) && state == old(state)
      ensures supported ==> (state, r) == Execute(old(state), planId, planDigest, confirmed, purgeAt, checkAt)
    {
      StutterGuards(state);
      if !supported {
        return Err(Unsupported);
      }
      ExecuteGuards(state, planId, planDigest, confirmed, purgeAt, checkAt);
      state, r := ExecutePlan(state, planId, planDigest, confirmed, purgeAt, checkAt);
    }
  }
}
