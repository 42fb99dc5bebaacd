/** The read-only resource projection and its generation-safe page tokens. */
module Pagination {
  import opened Common
  import opened Sequences
  import opened Text
  import TextOrder

  const MAX_PAGE_SIZE: nat := 1000

  /** `body` stands for everything queries do not look at. */
  datatype Resource = Resource(kind: string, name: string, source: string, transitioned: int, body: string)

  datatype Query = Query(
    kind: string, selector: Option<string>, fieldSelector: Option<string>, limit: nat, since: Option<string>)

  datatype Request = Request(query: Query, pageToken: Option<string>)

  datatype Page = Page(resources: seq<Resource>, next: Option<string>)

  datatype PortError = Invalid(field: string) | Conflict(operation: string) | Unsupported(operation: string) | Failed(operation: string)

  datatype Projection = Projection(generation: U64, resources: seq<Resource>)

  /** What the service computes with but does not define: SHA-256 in hexadecimal and RFC 3339. */
  datatype Environment = Environment(digest: string -> string, parseTime: string -> Option<int>)

  ghost predicate HexDigest(env: Environment) {
    forall s :: |env.digest(s)| == 64 && ':' !in env.digest(s)
  }

  // ---- Selection -------------------------------------------------------------------------

  function CanonicalKind(requested: string): string {
    var k := Lower(requested);
    if k in {"host", "hosts"} then "Host"
    else if k in {"instance", "instances"} then "Instance"
    else if k in {"slot", "slots"} then "Slot"
    else if k in {"runner", "runners", "runnerregistration", "runnerregistrations"} then "RunnerRegistration"
    else if k in {"job", "jobs"} then "Job"
    else if k in {"run", "runs"} then "Run"
    else if k in {"queue", "queues", "queueentry", "queueentries"} then "QueueEntry"
    else if k in {"event", "events"} then "Event"
    else if k in {"reservation", "reservations"} then "Reservation"
    else if k in {"lease", "leases"} then "Lease"
    else if k in {"capability", "capabilities"} then "Capability"
    else if k in {"adapter", "adapters"} then "Adapter"
    else requested
  }

  predicate SupportedField(field: string) {
    field in {"name", "metadata.name", "kind", "resourceKind", "source"}
  }

  /** The first reason to refuse the terms, if there is one. */
  function RefusedTerm(terms: seq<string>, field: string): Option<PortError> {
    if terms == [] then None
    else
      match SplitOnce(terms[0], '=')
      case None => Some(Invalid(field))
      case Some((f, _)) => if SupportedField(Trim(f)) then RefusedTerm(terms[1..], field) else Some(Invalid(Trim(f)))
  }

  function RefusedSelector(selector: Option<string>, field: string): Option<PortError> {
    match selector
    case None => None
    case Some(s) => if s == "" then Some(Invalid(field)) else RefusedTerm(Split(s, ','), field)
  }

  function TermMatches(r: Resource, term: string, field: string): Result<bool, PortError> {
    match SplitOnce(term, '=')
    case None => Err(Invalid(field))
    case Some((f, expected)) =>
      var f' := Trim(f);
      if f' in {"name", "metadata.name"} then Ok(r.name == Trim(expected))
      else if f' in {"kind", "resourceKind"} then Ok(Lower(r.kind) == Lower(Trim(expected)))
      else if f' == "source" then Ok(Lower(r.source) == Lower(Trim(expected)))
      else Err(Invalid(f'))
  }

  function TermsMatch(r: Resource, terms: seq<string>, field: string): Result<bool, PortError> {
    if terms == [] then Ok(true)
    else
      match TermMatches(r, terms[0], field)
      case Err(error) => Err(error)
      case Ok(first) =>
        match TermsMatch(r, terms[1..], field)
        case Err(error) => Err(error)
        case Ok(rest) => Ok(first && rest)
  }

  function SelectorMatches(r: Resource, selector: Option<string>, field: string): Result<bool, PortError> {
    match selector
    case None => Ok(true)
    case Some(s) => TermsMatch(r, Split(s, ','), field)
  }

  lemma {:induction false} AcceptedTermsMatch(r: Resource, terms: seq<string>, field: string, field': string)
    requires RefusedTerm(terms, field).None?
    ensures TermsMatch(r, terms, field').Ok?
  {
    if terms != [] { AcceptedTermsMatch(r, terms[1..], field, field'); }
  }

  /** A selector that passes validation never fails while resources are being matched, so a
      malformed one is refused up front even on an empty projection. */
  lemma AcceptedSelectorNeverFails(r: Resource, selector: Option<string>, field: string, field': string)
    requires RefusedSelector(selector, field).None?
    ensures SelectorMatches(r, selector, field').Ok?
  {
    if selector.Some? { AcceptedTermsMatch(r, Split(selector.value, ','), field, field'); }
  }

  /** The resource is what the validated query asks for. */
  predicate Selected(env: Environment, q: Query, r: Resource) {
    && (q.kind == "" || Lower(r.kind) == Lower(CanonicalKind(q.kind)))
    && (q.since.Some? && env.parseTime(q.since.value).Some? ==> env.parseTime(q.since.value).value <= r.transitioned)
    && SelectorMatches(r, q.selector, "selector") == Ok(true)
    && SelectorMatches(r, q.fieldSelector, "field_selector") == Ok(true)
  }

  // ---- Page tokens -----------------------------------------------------------------------

  function OrEmpty(s: Option<string>): string {
    if s.Some? then s.value else ""
  }

  function Framed(value: string): string {
    Print(|value|) + ":" + value + ";"
  }

  function FramedAll(fields: seq<string>): string {
    if fields == [] then "" else Framed(fields[0]) + FramedAll(fields[1..])
  }

  function QueryFields(q: Query): seq<string> {
    [q.kind, OrEmpty(q.selector), OrEmpty(q.fieldSelector), OrEmpty(q.since), Print(q.limit)]
  }

  function Fingerprint(env: Environment, q: Query): string {
    env.digest(FramedAll(QueryFields(q)))
  }

  datatype Token = Token(generation: nat, fingerprint: string, offset: nat)

  function PrintToken(t: Token): string {
    "v1:" + Print(t.generation) + ":" + t.fingerprint + ":" + Print(t.offset)
  }

  function ParseToken(raw: string): Option<Token> {
    if !("v1:" <= raw) then None
    else
      var parts := Split(raw[3..], ':');
      if |parts| != 3 || |parts[1]| != 64 then None
      else
        match (ParseU64(parts[0]), ParseU64(parts[2]))
        case (Some(g), Some(offset)) => if g == 0 then None else Some(Token(g, parts[1], offset))
        case _ => None
  }

  lemma SplitPrintedToken(t: Token)
    requires ':' !in t.fingerprint
    ensures "v1:" <= PrintToken(t)
    ensures Split(PrintToken(t)[3..], ':') == [Print(t.generation), t.fingerprint, Print(t.offset)]
  {
    PrintHasNoColon(t.generation);
    PrintHasNoColon(t.offset);
    SplitTagged("v1:", Print(t.generation), t.fingerprint, Print(t.offset));
  }

  /** Parsing a printed token gives back its generation, fingerprint and offset. */
  lemma ParsePrintedToken(t: Token)
    requires 0 < t.generation <= U64_MAX && t.offset <= U64_MAX && |t.fingerprint| == 64 && ':' !in t.fingerprint
    ensures ParseToken(PrintToken(t)) == Some(t)
  {
    SplitPrintedToken(t);
    ParsePrinted(t.generation);
    ParsePrinted(t.offset);
  }

  // ---- Pages -----------------------------------------------------------------------------

  /** The part of the matches that a page shows. */
  function Slice(all: seq<Resource>, offset: nat, limit: nat): seq<Resource> {
    all[Min(offset, |all|)..Min(offset + limit, |all|)]
  }

  /** Where a page request starts: at the beginning, or where a token of this projection and query
      says. */
  function TokenOffset(p: Projection, fingerprint: string, pageToken: Option<string>): Result<nat, PortError> {
    if pageToken.None? then Ok(0)
    else
      match ParseToken(pageToken.value)
      case None => Err(Invalid("page_token"))
      case Some(t) =>
        if t.generation != p.generation then Err(Conflict("page token generation expired"))
        else if t.fingerprint != fingerprint then Err(Conflict("page token does not match query"))
        else Ok(t.offset)
  }

  /** A validated query: what it selects, how it is fingerprinted, and its page size. */
  datatype Pager = Pager(select: Resource -> bool, fingerprint: string, limit: nat) {
    function PageAt(p: Projection, offset: nat): Page {
      var all := Filter(select, p.resources);
      Page(Slice(all, offset, limit),
           if offset + limit < |all| then Some(PrintToken(Token(p.generation, fingerprint, offset + limit))) else None)
    }

    /** The reply to a page request on one projection. */
    function Answer(p: Projection, pageToken: Option<string>): Result<Page, PortError> {
      match TokenOffset(p, fingerprint, pageToken)
      case Err(error) => Err(error)
      case Ok(offset) => Ok(PageAt(p, offset))
    }
  }

  function PagerFor(env: Environment, q: Query): Pager {
    Pager(r => Selected(env, q, r), Fingerprint(env, q), q.limit)
  }

  function RefusedQuery(env: Environment, q: Query): Option<PortError> {
    if q.limit == 0 || q.limit > MAX_PAGE_SIZE then Some(Invalid("limit"))
    else if q.since.Some? && env.parseTime(q.since.value).None? then Some(Invalid("since"))
    else if RefusedSelector(q.selector, "selector").Some? then RefusedSelector(q.selector, "selector")
    else RefusedSelector(q.fieldSelector, "field_selector")
  }

  function Answer(env: Environment, p: Projection, req: Request): Result<Page, PortError> {
    if RefusedQuery(env, req.query).Some? then Err(RefusedQuery(env, req.query).value)
    else PagerFor(env, req.query).Answer(p, req.pageToken)
  }

  method IsSelected(env: Environment, q: Query, resource: Resource) returns (selected: bool)
    requires RefusedQuery(env, q).None?
    ensures selected == Selected(env, q, resource)
  {
    if q.kind != "" && Lower(resource.kind) != Lower(CanonicalKind(q.kind)) {
      return false;
    }
    if q.since.Some? && resource.transitioned < env.parseTime(q.since.value).value {
      return false;
    }
    AcceptedSelectorNeverFails(resource, q.selector, "selector", "selector");
    AcceptedSelectorNeverFails(resource, q.fieldSelector, "field_selector", "field_selector");
    selected := SelectorMatches(resource, q.selector, "selector").value;
    if selected {
      selected := SelectorMatches(resource, q.fieldSelector, "field_selector").value;
    }
  }

  lemma SliceGrows(seen: seq<Resource>, r: Resource, offset: nat, limit: nat)
    requires |seen| <= offset + limit
    ensures Slice(seen + [r], offset, limit)
      == Slice(seen, offset, limit) + (if offset <= |seen| < offset + limit then [r] else [])
  {
  }

  lemma SliceIsFull(seen: seq<Resource>, all: seq<Resource>, offset: nat, limit: nat)
    requires seen <= all && |seen| > offset + limit
    ensures Slice(all, offset, limit) == Slice(seen, offset, limit)
  {
  }

  /** The counting loop: one pass that stops one match past the page. */
  method ScanPage(env: Environment, q: Query, resources: seq<Resource>, offset: nat, ghost select: Resource -> bool)
    returns (page: seq<Resource>, total: nat)
    requires RefusedQuery(env, q).None? && forall r :: select(r) == Selected(env, q, r)
    ensures page == Slice(Filter(select, resources), offset, q.limit)
    ensures total == Min(offset + q.limit + 1, |Filter(select, resources)|)
  {
    var pageEnd := offset + q.limit;
    page, total := [], 0;
    for i := 0 to |resources|
      invariant total == |Filter(select, resources[..i])| <= pageEnd
      invariant page == Slice(Filter(select, resources[..i]), offset, q.limit)
    {
      var resource := resources[i];
      FilterStep(select, resources, i);
      var selected := IsSelected(env, q, resource);
      if selected {
        SliceGrows(Filter(select, resources[..i]), resource, offset, q.limit);
        if offset <= total < pageEnd {
          page := page + [resource];
        }
        total := total + 1;
        if total > pageEnd {
          FilterIsPrefix(select, resources, i + 1);
          SliceIsFull(Filter(select, resources[..i + 1]), Filter(select, resources), offset, q.limit);
          return;
        }
      }
    }
    assert resources[..|resources|] == resources;
  }

  /** The page at an offset, with a token for the next one exactly if something is left. */
  method PageFrom(env: Environment, p: Projection, q: Query, offset: nat) returns (page: Page)
    requires RefusedQuery(env, q).None?
    ensures page == PagerFor(env, q).PageAt(p, offset)
  {
    ghost var pager := PagerFor(env, q);
    var shown, total := ScanPage(env, q, p.resources, offset, pager.select);
    var start := Min(offset, total);
    var end := Min(start + q.limit, total);
    page := Page(shown, if end < total then Some(PrintToken(Token(p.generation, Fingerprint(env, q), end))) else None);
  }

  /** Read one page of a validated request under the projection's read lock. */
  method ReadPage(env: Environment, p: Projection, req: Request) returns (r: Result<Page, PortError>)
    requires RefusedQuery(env, req.query).None?
    ensures r == PagerFor(env, req.query).Answer(p, req.pageToken)
  {
    var offset := TokenOffset(p, Fingerprint(env, req.query), req.pageToken);
    if offset.Err? {
      return Err(offset.error);
    }
    var page := PageFrom(env, p, req.query, offset.value);
    r := Ok(page);
  }

  // ---- The service -----------------------------------------------------------------------

  predicate KeyBefore(a: Resource, b: Resource) {
    TextOrder.Before(a.kind, b.kind) || (a.kind == b.kind && TextOrder.Before(a.name, b.name))
  }

  function Insert(r: Resource, sorted: seq<Resource>): seq<Resource> {
    if sorted == [] || !KeyBefore(sorted[0], r) then [r] + sorted else [sorted[0]] + Insert(r, sorted[1..])
  }

  /** Stable sort by kind, then name. */
  function SortedByKey(rs: seq<Resource>): seq<Resource> {
    if rs == [] then [] else Insert(rs[0], SortedByKey(rs[1..]))
  }

  function Replaced(p: Projection, rs: seq<Resource>): Projection {
    Projection(Bump(p.generation), SortedByKey(rs))
  }

  /** A durable projection advances its generation only when what it loads has changed. */
  function Refreshed(p: Projection, loaded: seq<Resource>): Projection {
    if loaded == p.resources then p else Projection(Bump(p.generation), loaded)
  }

  class QueryService {
    const env: Environment
    const durable: bool
    var generation: U64
    var resources: seq<Resource>

    function State(): Projection
      reads this
    {
      Projection(generation, resources)
    }

    constructor (env: Environment, durable: bool)
      ensures this.env == env && this.durable == durable && State() == Projection(0, [])
    {
      this.env, this.durable, generation, resources := env, durable, 0, [];
    }

    method Replace(rs: seq<Resource>) returns (r: Result<(), PortError>)
      modifies this
      ensures r.Ok? <==> !durable && forall i :: 0 <= i < |rs| ==> Trim(rs[i].name) != "" && |rs[i].name| <= 512
      ensures State() == if r.Ok? then Replaced(old(State()), rs) else old(State())
    {
      if durable {
        return Err(Unsupported("replace durable query projection"));
      }
      if exists i :: 0 <= i < |rs| && (Trim(rs[i].name) == "" || |rs[i].name| > 512) {
        return Err(Invalid("resource.meta.name"));
      }
      generation := Bump(generation);
      resources := SortedByKey(rs);
      r := Ok(());
    }

    /** `loaded` is what the durable loader returns at this moment. */
    method Query(req: Request, loaded: Result<seq<Resource>, PortError>) returns (r: Result<Page, PortError>)
      modifies this
      ensures RefusedQuery(env, req.query).Some? ==> r.Err? && State() == old(State())
      ensures RefusedQuery(env, req.query).None? && durable && loaded.Err? ==> r == Err(loaded.error) && State() == old(State())
      ensures RefusedQuery(env, req.query).None? && !(durable && loaded.Err?) ==>
        State() == if durable then Refreshed(old(State()), loaded.value) else old(State())
      ensures !(durable && loaded.Err?) ==> r == Answer(env, State(), req)
    {
      if req.query.limit == 0 || req.query.limit > MAX_PAGE_SIZE {
        return Err(Invalid("limit"));
      }
      if req.query.since.Some? && env.parseTime(req.query.since.value).None? {
        return Err(Invalid("since"));
      }
      var refused := RefusedSelector(req.query.selector, "selector");
      if refused.Some? {
        return Err(refused.value);
      }
      refused := RefusedSelector(req.query.fieldSelector, "field_selector");
      if refused.Some? {
        return Err(refused.value);
      }
      if durable {
        if loaded.Err? {
          return Err(loaded.error);
        }
        if resources != loaded.value {
          generation, resources := Bump(generation), loaded.value;
        }
      }
      r := ReadPage(env, State(), req);
    }
  }
}
