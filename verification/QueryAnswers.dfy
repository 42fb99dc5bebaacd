/** What a query asks for and what its answers mean, stated over the resources themselves. */
module QueryAnswers {
  import opened Common
  import opened Sequences
  import opened Text
  import opened Pagination

  // ---- Selectors -------------------------------------------------------------------------

  predicate IsNameField(field: string) {
    field == "name" || field == "metadata.name"
  }

  predicate IsKindField(field: string) {
    field == "kind" || field == "resourceKind"
  }

  /** The resource has this value in this field: names exactly, kinds and sources up to case. */
  ghost predicate FieldIs(r: Resource, field: string, value: string) {
    if IsNameField(field) then r.name == value
    else if IsKindField(field) then SameLetters(r.kind, value)
    else field == "source" && SameLetters(r.source, value)
  }

  /** The term names a field it may name, before its first equals sign. */
  ghost predicate IsTerm(term: string) {
    exists f, v :: term == f + ['='] + v && '=' !in f
      && (IsNameField(Trim(f)) || IsKindField(Trim(f)) || Trim(f) == "source")
  }

  ghost predicate AllTerms(terms: seq<string>) {
    forall i :: 0 <= i < |terms| ==> IsTerm(terms[i])
  }

  ghost predicate TermHolds(r: Resource, term: string) {
    exists f, v :: term == f + ['='] + v && '=' !in f && FieldIs(r, Trim(f), Trim(v))
  }

  /** Every term of the comma-separated selector holds. */
  ghost predicate Meets(r: Resource, selector: Option<string>) {
    selector.Some? ==> forall i :: 0 <= i < |Split(selector.value, ',')| ==> TermHolds(r, Split(selector.value, ',')[i])
  }

  /** A term with a supported field matches exactly the resources with that value. */
  lemma TermMatchesMeans(r: Resource, f: string, v: string, field: string)
    requires '=' !in f
    ensures IsNameField(Trim(f)) ==> TermMatches(r, f + ['='] + v, field) == Ok(r.name == Trim(v))
    ensures IsKindField(Trim(f)) ==> TermMatches(r, f + ['='] + v, field) == Ok(SameLetters(r.kind, Trim(v)))
    ensures Trim(f) == "source" ==> TermMatches(r, f + ['='] + v, field) == Ok(SameLetters(r.source, Trim(v)))
    ensures !IsNameField(Trim(f)) && !IsKindField(Trim(f)) && Trim(f) != "source" ==>
      TermMatches(r, f + ['='] + v, field) == Err(Invalid(Trim(f)))
  {
    SplitOnceAt(f, '=', v);
    LowerMeans(r.kind, Trim(v));
    LowerMeans(r.source, Trim(v));
  }

  lemma TermMatchesIffHolds(r: Resource, term: string, field: string)
    ensures TermMatches(r, term, field) == Ok(true) <==> TermHolds(r, term)
  {
    SplitOnceMeans(term, '=');
    match SplitOnce(term, '=')
    case None =>
    case Some((f, v)) =>
      TermMatchesMeans(r, f, v, field);
      if TermHolds(r, term) {
        var f', v' :| term == f' + ['='] + v' && '=' !in f' && FieldIs(r, Trim(f'), Trim(v'));
        SplitOnceAt(f', '=', v');
      }
  }

  lemma {:induction false} TermsMatchIffAllHold(r: Resource, terms: seq<string>, field: string)
    ensures TermsMatch(r, terms, field) == Ok(true) ==> forall i :: 0 <= i < |terms| ==> TermHolds(r, terms[i])
    ensures TermsMatch(r, terms, field).Ok? && (forall i :: 0 <= i < |terms| ==> TermHolds(r, terms[i])) ==>
      TermsMatch(r, terms, field) == Ok(true)
    decreases |terms|
  {
    if terms != [] {
      TermMatchesIffHolds(r, terms[0], field);
      TermsMatchIffAllHold(r, terms[1..], field);
      assert forall i :: 0 < i < |terms| ==> terms[i] == terms[1..][i - 1];
      assert forall i :: 0 <= i < |terms[1..]| ==> terms[1..][i] == terms[i + 1];
    }
  }

  /** An accepted selector matches exactly the resources for which every one of its terms holds. */
  lemma SelectorMatchesIffMeets(r: Resource, selector: Option<string>, field: string, field': string)
    requires RefusedSelector(selector, field).None?
    ensures SelectorMatches(r, selector, field') == Ok(true) <==> Meets(r, selector)
  {
    AcceptedSelectorNeverFails(r, selector, field, field');
    if selector.Some? { TermsMatchIffAllHold(r, Split(selector.value, ','), field'); }
  }

  lemma {:induction false} RefusedTermMeans(terms: seq<string>, field: string)
    ensures RefusedTerm(terms, field).None? <==> AllTerms(terms)
    decreases |terms|
  {
    if terms != [] {
      SplitOnceMeans(terms[0], '=');
      RefusedTermMeans(terms[1..], field);
      assert forall i :: 0 < i < |terms| ==> terms[i] == terms[1..][i - 1];
      assert forall i :: 0 <= i < |terms[1..]| ==> terms[1..][i] == terms[i + 1];
      if IsTerm(terms[0]) {
        var f, v :| terms[0] == f + ['='] + v && '=' !in f
          && (IsNameField(Trim(f)) || IsKindField(Trim(f)) || Trim(f) == "source");
        SplitOnceAt(f, '=', v);
      }
    }
  }

  /** A selector is accepted exactly if it is absent, or not empty and made of terms. */
  lemma SelectorAcceptedIff(selector: Option<string>, field: string)
    ensures selector.None? ==> RefusedSelector(selector, field).None?
    ensures selector.Some? ==>
      (RefusedSelector(selector, field).None? <==> selector.value != "" && AllTerms(Split(selector.value, ',')))
  {
    if selector.Some? { RefusedTermMeans(Split(selector.value, ','), field); }
  }

  // ---- Kinds -----------------------------------------------------------------------------

  /** The nouns a request may use for a kind, in lower case, singular and plural. */
  const KIND_NOUNS: map<string, string> := map[
    "host" := "Host", "hosts" := "Host", "instance" := "Instance", "instances" := "Instance",
    "slot" := "Slot", "slots" := "Slot", "runner" := "RunnerRegistration", "runners" := "RunnerRegistration",
    "runnerregistration" := "RunnerRegistration", "runnerregistrations" := "RunnerRegistration",
    "job" := "Job", "jobs" := "Job", "run" := "Run", "runs" := "Run",
    "queue" := "QueueEntry", "queues" := "QueueEntry", "queueentry" := "QueueEntry", "queueentries" := "QueueEntry",
    "event" := "Event", "events" := "Event", "reservation" := "Reservation", "reservations" := "Reservation",
    "lease" := "Lease", "leases" := "Lease", "capability" := "Capability", "capabilities" := "Capability",
    "adapter" := "Adapter", "adapters" := "Adapter"]

  lemma KnownKindMeans(requested: string)
    requires Lower(requested) in KIND_NOUNS
    ensures CanonicalKind(requested) == KIND_NOUNS[Lower(requested)]
  {
  }

  lemma UnknownKindMeans(requested: string)
    requires Lower(requested) !in KIND_NOUNS
    ensures CanonicalKind(requested) == requested
  {
  }

  lemma CanonicalKindMeans(requested: string)
    ensures CanonicalKind(requested) == if Lower(requested) in KIND_NOUNS then KIND_NOUNS[Lower(requested)] else requested
  {
    if Lower(requested) in KIND_NOUNS { KnownKindMeans(requested); } else { UnknownKindMeans(requested); }
  }

  // ---- Queries ---------------------------------------------------------------------------

  /** What a query asks for: the kind under any of its nouns, no older than `since`, meeting both
      selectors. */
  ghost predicate IsWanted(env: Environment, q: Query, r: Resource) {
    && (q.kind != "" ==> SameLetters(r.kind, if Lower(q.kind) in KIND_NOUNS then KIND_NOUNS[Lower(q.kind)] else q.kind))
    && (q.since.Some? ==> env.parseTime(q.since.value).Some? && r.transitioned >= env.parseTime(q.since.value).value)
    && Meets(r, q.selector) && Meets(r, q.fieldSelector)
  }

  /** A query is accepted exactly with a page size from 1 to 1000, a readable time and accepted
      selectors. */
  lemma QueryAcceptedIff(env: Environment, q: Query)
    ensures RefusedQuery(env, q).None? <==>
      && 1 <= q.limit <= 1000
      && (q.since.Some? ==> env.parseTime(q.since.value).Some?)
      && RefusedSelector(q.selector, "selector").None? && RefusedSelector(q.fieldSelector, "field_selector").None?
  {
  }

  lemma SelectedIffWanted(env: Environment, q: Query, r: Resource)
    requires RefusedQuery(env, q).None?
    ensures Selected(env, q, r) <==> IsWanted(env, q, r)
  {
    CanonicalKindMeans(q.kind);
    LowerMeans(r.kind, CanonicalKind(q.kind));
    SelectorMatchesIffMeets(r, q.selector, "selector", "selector");
    SelectorMatchesIffMeets(r, q.fieldSelector, "field_selector", "field_selector");
  }

  /** Every page shows only wanted resources of the projection, at most `limit` of them. */
  lemma PageShowsOnlyWanted(env: Environment, p: Projection, req: Request, r: Resource)
    requires Answer(env, p, req).Ok? && r in Answer(env, p, req).value.resources
    ensures r in p.resources && IsWanted(env, req.query, r)
    ensures |Answer(env, p, req).value.resources| <= req.query.limit
  {
    var pager := PagerFor(env, req.query);
    FilterIsSubset(pager.select, p.resources);
    assert r in Filter(pager.select, p.resources);
    SelectedIffWanted(env, req.query, r);
  }

  lemma {:induction false} FilterKeepsAll<T>(keep: T -> bool, xs: seq<T>, x: T)
    requires x in xs && keep(x)
    ensures x in Filter(keep, xs)
    decreases |xs|
  {
    var n := |xs| - 1;
    if x != xs[n] { FilterKeepsAll(keep, xs[..n], x); }
  }

  /** Nothing wanted is lost: it is among the resources whose slices the pages are. */
  lemma WantedIsPaged(env: Environment, q: Query, resources: seq<Resource>, r: Resource)
    requires RefusedQuery(env, q).None? && r in resources && IsWanted(env, q, r)
    ensures r in Filter(PagerFor(env, q).select, resources)
  {
    SelectedIffWanted(env, q, r);
    FilterKeepsAll(PagerFor(env, q).select, resources, r);
  }

  // ---- Tokens and publications -----------------------------------------------------------

  /** A page token is honoured exactly if it is well formed and carries the generation of the
      projection and the fingerprint of the query. */
  lemma TokenHonouredIff(p: Projection, fingerprint: string, raw: string)
    ensures TokenOffset(p, fingerprint, None) == Ok(0)
    ensures TokenOffset(p, fingerprint, Some(raw)).Ok? <==>
      ParseToken(raw).Some? && ParseToken(raw).value.generation == p.generation && ParseToken(raw).value.fingerprint == fingerprint
    ensures TokenOffset(p, fingerprint, Some(raw)).Ok? ==> TokenOffset(p, fingerprint, Some(raw)).value == ParseToken(raw).value.offset
    ensures ParseToken(raw).None? ==> TokenOffset(p, fingerprint, Some(raw)) == Err(Invalid("page_token"))
    ensures ParseToken(raw).Some? && TokenOffset(p, fingerprint, Some(raw)).Err? ==>
      TokenOffset(p, fingerprint, Some(raw)).error.Conflict?
  {
  }

  /** A text is a page token only in its printed shape: a version tag and three fields, the middle one
      a fingerprint, with a generation that was ever published. */
  lemma TokenShape(raw: string)
    requires ParseToken(raw).Some?
    ensures var t := ParseToken(raw).value;
      && 0 < t.generation <= U64_MAX && t.offset <= U64_MAX && |t.fingerprint| == 64
      && exists g, o :: raw == "v1:" + (g + [':'] + (t.fingerprint + [':'] + o)) && ParseU64(g) == Some(t.generation) && ParseU64(o) == Some(t.offset)
  {
    var parts := Split(raw[3..], ':');
    SplitMeans(raw[3..], ':');
    assert parts[1..][1..] == parts[2..] && parts[1..] == [parts[1], parts[2]];
    assert Join(parts, ':') == parts[0] + [':'] + Join(parts[1..], ':');
    assert Join(parts[1..], ':') == parts[1] + [':'] + Join(parts[2..], ':');
    assert raw == "v1:" + raw[3..];
  }

  /** Publishing always takes a new generation; a refresh does exactly when what it loads differs. */
  lemma PublicationAnswers(p: Projection, rs: seq<Resource>)
    ensures p.generation < U64_MAX ==> Replaced(p, rs).generation == p.generation + 1
    ensures Refreshed(p, rs).resources == rs
    ensures rs == p.resources ==> Refreshed(p, rs) == p
    ensures rs != p.resources && p.generation < U64_MAX ==> Refreshed(p, rs).generation == p.generation + 1
  {
  }
}
