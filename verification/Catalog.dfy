/** The storage catalog and its dry-run-first garbage collection. */
module Catalog {
  import opened Common
  import opened Text
  import opened TextOrder

  const PLAN_TTL: nat := 900_000_000_000
  const MAX_CATALOG_OBJECTS: nat := 100_000
  const MAX_PLAN_CANDIDATES: nat := 100_000
  const MAX_RETAINED_PLANS: nat := 1_024

  datatype StorageObject = StorageObject(
    id: string, storageClass: string, scope: string, owner: string, logicalBytes: nat, physicalBytes: Option<nat>,
    active: bool, resourceVersion: nat, observedAt: nat)

  datatype Candidate = Candidate(objectId: string, resourceVersion: nat, physicalBytes: Option<nat>)

  /** Times are nanoseconds. */
  datatype Plan = Plan(planId: string, digest: string, candidates: seq<Candidate>, createdAt: nat, expiresAt: nat)

  datatype CatalogState = CatalogState(
    version: nat, nextPlanId: nat, objects: map<string, StorageObject>, plans: map<string, Plan>)

  const EMPTY_CATALOG := CatalogState(0, 0, map[], map[])

  datatype CatalogError =
    | Unsupported | InvalidObject | ObjectBudget | CandidateBudget | Unconfirmed | PlanMissing | DigestChanged
    | PlanExpired | ObjectDisappeared(objectId: string) | ObjectChanged(objectId: string)

  function PlanName(n: nat): string {
    "gc-" + Print(n)
  }

  lemma PlanNamesDiffer(m: nat, n: nat)
    requires PlanName(m) == PlanName(n)
    ensures m == n
  {
    assert PlanName(m)[3..] == Print(m) && PlanName(n)[3..] == Print(n);
    PrintIsInjective(m, n);
  }

  // ---- Upserts ---------------------------------------------------------------------------

  function Upsert(s: CatalogState, item: StorageObject): (CatalogState, Result<nat, CatalogError>) {
    if item.id == "" || item.owner == "" || item.scope == "" then (s, Err(InvalidObject))
    else if item.id !in s.objects && |s.objects| >= MAX_CATALOG_OBJECTS then (s, Err(ObjectBudget))
    else
      var version := Bump(s.version);
      (s.(version := version, objects := s.objects[item.id := item.(resourceVersion := version)]), Ok(version))
  }

  // ---- Plans -----------------------------------------------------------------------------

  function Purged(plans: map<string, Plan>, now: nat): map<string, Plan> {
    map id | id in plans && plans[id].expiresAt >= now :: plans[id]
  }

  predicate IsCollectable(item: StorageObject, scope: string) {
    item.scope == scope && !item.active
  }

  function CandidateOf(item: StorageObject): Candidate {
    Candidate(item.id, item.resourceVersion, item.physicalBytes)
  }

  predicate Names(cs: seq<Candidate>, id: string) {
    exists i :: 0 <= i < |cs| && cs[i].objectId == id
  }

  function NamedBy(cs: seq<Candidate>): set<string> {
    set i | 0 <= i < |cs| :: cs[i].objectId
  }

  predicate Ascending(cs: seq<Candidate>) {
    forall i, j :: 0 <= i < j < |cs| ==> Before(cs[i].objectId, cs[j].objectId)
  }

  /** The candidates are the collectable objects among `ids`, each once, in key order. */
  predicate IsCandidateList(objects: map<string, StorageObject>, ids: set<string>, scope: string, cs: seq<Candidate>) {
    && Ascending(cs)
    && (forall i :: 0 <= i < |cs| ==>
          && cs[i].objectId in ids && cs[i].objectId in objects
          && cs[i] == CandidateOf(objects[cs[i].objectId])
          && IsCollectable(objects[cs[i].objectId], scope))
    && (forall id :: id in ids && id in objects && IsCollectable(objects[id], scope) ==> Names(cs, id))
  }

  predicate Earlier(a: Plan, b: Plan) {
    a.createdAt < b.createdAt || (a.createdAt == b.createdAt && Before(a.planId, b.planId))
  }

  /** The plans kept are the latest ones, as many as may be retained. */
  predicate KeepsLatest(plans: map<string, Plan>, kept: map<string, Plan>) {
    && (forall id :: id in kept ==> id in plans && kept[id] == plans[id])
    && |kept| == Min(|plans|, MAX_RETAINED_PLANS)
    && (forall out, id :: out in plans && out !in kept && id in kept ==> Earlier(plans[out], plans[id]))
  }

  ghost predicate Planned(digest: seq<Candidate> -> string, s: CatalogState, scope: string, purgeAt: nat, createdAt: nat,
                          s': CatalogState, r: Result<Plan, CatalogError>) {
    match r
    case Ok(plan) =>
      && IsCandidateList(s.objects, s.objects.Keys, scope, plan.candidates)
      && |plan.candidates| <= MAX_PLAN_CANDIDATES
      && plan.planId == PlanName(Bump(s.nextPlanId)) && plan.digest == digest(plan.candidates)
      && plan.createdAt == createdAt && plan.expiresAt == createdAt + PLAN_TTL
      && s' == s.(nextPlanId := Bump(s.nextPlanId), plans := s'.plans)
      && KeepsLatest(Purged(s.plans, purgeAt)[plan.planId := plan], s'.plans)
    case Err(e) =>
      e == CandidateBudget && |s.objects| > MAX_PLAN_CANDIDATES && s' == s.(plans := Purged(s.plans, purgeAt))
  }

  // ---- Execution -------------------------------------------------------------------------

  predicate Unchanged(objects: map<string, StorageObject>, c: Candidate) {
    c.objectId in objects && !objects[c.objectId].active && objects[c.objectId].resourceVersion == c.resourceVersion
  }

  /** The first reason not to execute, in candidate order. */
  function Obstacle(objects: map<string, StorageObject>, cs: seq<Candidate>): Option<CatalogError> {
    if cs == [] then None
    else if Unchanged(objects, cs[0]) then Obstacle(objects, cs[1..])
    else if cs[0].objectId !in objects then Some(ObjectDisappeared(cs[0].objectId))
    else Some(ObjectChanged(cs[0].objectId))
  }

  lemma {:induction false} NoObstacle(objects: map<string, StorageObject>, cs: seq<Candidate>)
    ensures Obstacle(objects, cs).None? <==> forall i :: 0 <= i < |cs| ==> Unchanged(objects, cs[i])
  {
    if cs != [] {
      NoObstacle(objects, cs[1..]);
      assert forall i :: 0 < i < |cs| ==> cs[i] == cs[1..][i - 1];
      assert forall i :: 0 <= i < |cs| - 1 ==> cs[1..][i] == cs[i + 1];
    }
  }

  lemma RemovingShrinks(objects: map<string, StorageObject>, ids: set<string>)
    ensures |objects - ids| + |objects.Keys * ids| == |objects|
  {
    assert objects.Keys == (objects - ids).Keys + objects.Keys * ids;
    assert |objects.Keys| == |objects| && |(objects - ids).Keys| == |objects - ids|;
  }

  function Execute(s: CatalogState, planId: string, digest: string, confirmed: bool, purgeAt: nat, checkAt: nat)
    : (CatalogState, Result<nat, CatalogError>)
  {
    if !confirmed then (s, Err(Unconfirmed))
    else
      var purged := s.(plans := Purged(s.plans, purgeAt));
      if planId !in purged.plans then (purged, Err(PlanMissing))
      else
        var plan := purged.plans[planId];
        if plan.digest != digest then (purged, Err(DigestChanged))
        else if plan.expiresAt < checkAt then (purged, Err(PlanExpired))
        else
          var obstacle := Obstacle(s.objects, plan.candidates);
          if obstacle.Some? then (purged, Err(obstacle.value))
          else
            var objects := s.objects - NamedBy(plan.candidates);
            RemovingShrinks(s.objects, NamedBy(plan.candidates));
            (purged.(version := Bump(s.version), objects := objects), Ok(|s.objects| - |objects|))
  }
}
