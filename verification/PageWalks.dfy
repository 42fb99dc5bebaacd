/** What a client that follows page tokens to the end has seen. */
module PageWalks {
  import opened Common
  import opened Sequences
  import opened Text
  import opened Pagination
  import TextOrder

  // ---- The sorted projection -------------------------------------------------------------

  lemma KeyOrder(a: Resource, b: Resource, c: Resource)
    ensures !(KeyBefore(a, b) && KeyBefore(b, a))
    ensures !KeyBefore(b, a) && !KeyBefore(c, b) ==> !KeyBefore(c, a)
  {
    TextOrder.BeforeIsAsymmetric(a.kind, b.kind);
    TextOrder.BeforeIsAsymmetric(a.name, b.name);
    TextOrder.BeforeIsTotal(a.kind, b.kind);
    TextOrder.BeforeIsTotal(b.kind, c.kind);
    TextOrder.BeforeIsTotal(a.name, b.name);
    TextOrder.BeforeIsTotal(b.name, c.name);
    TextOrder.BeforeIsAsymmetric(a.kind, c.kind);
    TextOrder.BeforeIsAsymmetric(a.name, c.name);
    if TextOrder.Before(a.kind, b.kind) && TextOrder.Before(b.kind, c.kind) {
      TextOrder.BeforeIsTransitive(a.kind, b.kind, c.kind);
    }
    if TextOrder.Before(a.name, b.name) && TextOrder.Before(b.name, c.name) {
      TextOrder.BeforeIsTransitive(a.name, b.name, c.name);
    }
  }

  ghost predicate IsSorted(rs: seq<Resource>) {
    forall i, j :: 0 <= i < j < |rs| ==> !KeyBefore(rs[j], rs[i])
  }

  /** By kind, and within a kind by name. */
  ghost predicate ByKindAndName(rs: seq<Resource>) {
    forall i, j :: 0 <= i < j < |rs| ==>
      || TextOrder.Before(rs[i].kind, rs[j].kind)
      || (rs[i].kind == rs[j].kind && (rs[i].name == rs[j].name || TextOrder.Before(rs[i].name, rs[j].name)))
  }

  lemma SortedMeans(rs: seq<Resource>)
    requires IsSorted(rs)
    ensures ByKindAndName(rs)
  {
    forall i, j | 0 <= i < j < |rs|
      ensures
        || TextOrder.Before(rs[i].kind, rs[j].kind)
        || (rs[i].kind == rs[j].kind && (rs[i].name == rs[j].name || TextOrder.Before(rs[i].name, rs[j].name)))
    {
      TextOrder.BeforeIsTotal(rs[i].kind, rs[j].kind);
      TextOrder.BeforeIsTotal(rs[i].name, rs[j].name);
    }
  }

  lemma {:induction false} InsertPermutes(r: Resource, rs: seq<Resource>)
    ensures multiset(Insert(r, rs)) == multiset([r]) + multiset(rs)
  {
    if rs != [] && KeyBefore(rs[0], r) {
      InsertPermutes(r, rs[1..]);
      assert rs == [rs[0]] + rs[1..];
    }
  }

  lemma {:induction false} InsertSorts(r: Resource, rs: seq<Resource>)
    requires IsSorted(rs)
    ensures IsSorted(Insert(r, rs))
  {
    if rs == [] || !KeyBefore(rs[0], r) {
      forall j | 0 <= j < |rs| ensures !KeyBefore(rs[j], r) {
        KeyOrder(r, rs[0], rs[j]);
      }
    } else {
      InsertSorts(r, rs[1..]);
      var tail := Insert(r, rs[1..]);
      InsertPermutes(r, rs[1..]);
      KeyOrder(rs[0], r, r);
      forall x | x in tail ensures !KeyBefore(x, rs[0]) {
        assert x in multiset(tail);
        assert x == r || x in rs[1..];
      }
    }
  }

  function HasKey(kind: string, name: string): Resource -> bool {
    (r: Resource) => r.kind == kind && r.name == name
  }

  lemma {:induction false} InsertIsStable(r: Resource, rs: seq<Resource>, kind: string, name: string)
    ensures var keep := HasKey(kind, name); Filter(keep, Insert(r, rs)) == Filter(keep, [r]) + Filter(keep, rs)
  {
    var keep := HasKey(kind, name);
    if rs == [] || !KeyBefore(rs[0], r) {
      FilterOfAppend(keep, [r], rs);
    } else {
      InsertIsStable(r, rs[1..], kind, name);
      FilterOfAppend(keep, [rs[0]], Insert(r, rs[1..]));
      FilterOfAppend(keep, [rs[0]], rs[1..]);
      assert rs == [rs[0]] + rs[1..];
      TextOrder.BeforeIsAsymmetric(rs[0].kind, rs[0].kind);
      TextOrder.BeforeIsAsymmetric(rs[0].name, rs[0].name);
      if keep(r) { FilterNone(keep, [rs[0]]); } else { FilterNone(keep, [r]); }
    }
  }

  lemma {:induction false} SortedByKeyIsStable(rs: seq<Resource>, kind: string, name: string)
    ensures Filter(HasKey(kind, name), SortedByKey(rs)) == Filter(HasKey(kind, name), rs)
  {
    if rs != [] {
      SortedByKeyIsStable(rs[1..], kind, name);
      InsertIsStable(rs[0], SortedByKey(rs[1..]), kind, name);
      FilterOfAppend(HasKey(kind, name), [rs[0]], rs[1..]);
      assert rs == [rs[0]] + rs[1..];
    }
  }

  lemma {:induction false} SortedByKeyPermutes(rs: seq<Resource>)
    ensures IsSorted(SortedByKey(rs)) && multiset(SortedByKey(rs)) == multiset(rs)
  {
    if rs != [] {
      SortedByKeyPermutes(rs[1..]);
      InsertSorts(rs[0], SortedByKey(rs[1..]));
      InsertPermutes(rs[0], SortedByKey(rs[1..]));
      assert rs == [rs[0]] + rs[1..];
    }
  }

  /** Publishing sorts: the projection holds exactly the published resources, in key order, and
      resources with the same key in the order they were given. */
  lemma SortedByKeySorts(rs: seq<Resource>)
    ensures ByKindAndName(SortedByKey(rs)) && multiset(SortedByKey(rs)) == multiset(rs)
    ensures forall kind, name :: Filter(HasKey(kind, name), SortedByKey(rs)) == Filter(HasKey(kind, name), rs)
  {
    SortedByKeyPermutes(rs);
    SortedMeans(SortedByKey(rs));
    forall kind, name
      ensures Filter(HasKey(kind, name), SortedByKey(rs)) == Filter(HasKey(kind, name), rs)
    {
      SortedByKeyIsStable(rs, kind, name);
    }
  }

  // ---- Walks -----------------------------------------------------------------------------

  /** Generation zero is the projection nothing was ever published to. */
  ghost predicate Numbered(p: Projection) {
    p.generation == 0 ==> p.resources == []
  }

  /** What happens to a projection between two queries, while the generation counter has room:
      the generation never falls, and it identifies the resources. */
  ghost predicate Evolves(p: Projection, p': Projection) {
    p.generation <= p'.generation && (p.generation == p'.generation && p'.generation < U64_MAX ==> p' == p)
  }

  /** Publishing and refreshing evolve the projection; so does any number of them in turn. */
  lemma PublishingEvolves(p: Projection, q: Projection, rs: seq<Resource>)
    requires Evolves(p, q) && Numbered(q)
    ensures Evolves(p, Replaced(q, rs)) && Numbered(Replaced(q, rs))
    ensures Evolves(p, Refreshed(q, rs)) && Numbered(Refreshed(q, rs))
  {
  }

  /** The pages a client has read, each with the projection it was read from. */
  datatype Walk = Begin(at: Projection, page: Page) | Then(before: Walk, at: Projection, page: Page) {
    function Origin(): Projection {
      if Begin? then at else before.Origin()
    }

    function Length(): nat {
      if Begin? then 1 else before.Length() + 1
    }

    /** Where the last page starts, pages being `limit` long. */
    function Offset(limit: nat): nat {
      if Begin? then 0 else before.Offset(limit) + limit
    }

    function Gathered(): seq<Resource> {
      if Begin? then page.resources else before.Gathered() + page.resources
    }
  }

  /** Each page was read with the token of the page before; the projection may have evolved in
      between. */
  ghost predicate IsWalk(pager: Pager, w: Walk) {
    match w
    case Begin(p, page) => pager.Answer(p, None) == Ok(page)
    case Then(before, p, page) =>
      && IsWalk(pager, before) && Evolves(before.at, p)
      && before.page.next.Some? && pager.Answer(p, before.page.next) == Ok(page)
  }

  /** Nothing was published behind a saturated counter: each page was read while the generation had
      room, or from the same projection as the page before. */
  ghost predicate Traceable(w: Walk) {
    w.Then? ==> Traceable(w.before) && (w.at.generation < U64_MAX || w.at == w.before.at)
  }

  ghost predicate WellFormed(pager: Pager) {
    0 < pager.limit && |pager.fingerprint| == 64 && ':' !in pager.fingerprint
  }

  /** Every accepted query makes a well-formed pager. */
  lemma AcceptedQueryPages(env: Environment, q: Query)
    requires HexDigest(env) && RefusedQuery(env, q).None?
    ensures WellFormed(PagerFor(env, q))
  {
  }

  /** Following an issued token: from the same generation it continues where the page ended; from
      any other it is a conflict. */
  lemma FollowingToken(pager: Pager, p: Projection, p': Projection, offset: nat)
    requires WellFormed(pager) && Numbered(p) && pager.PageAt(p, offset).next.Some?
    requires |Filter(pager.select, p.resources)| <= U64_MAX
    ensures pager.Answer(p', pager.PageAt(p, offset).next)
      == if p'.generation == p.generation then Ok(pager.PageAt(p', offset + pager.limit))
         else Err(Conflict("page token generation expired"))
  {
    ParsePrintedToken(Token(p.generation, pager.fingerprint, offset + pager.limit));
  }

  /** A token issued before a publication conflicts after it, unless the generation counter has
      saturated: only then can a changed projection pass for the old one. */
  lemma PublicationIsDetected(pager: Pager, p: Projection, rs: seq<Resource>, offset: nat)
    requires WellFormed(pager) && Numbered(p) && pager.PageAt(p, offset).next.Some?
    requires |Filter(pager.select, p.resources)| <= U64_MAX
    ensures pager.Answer(Replaced(p, rs), pager.PageAt(p, offset).next) == Err(Conflict("page token generation expired"))
      <==> p.generation < U64_MAX
  {
    FollowingToken(pager, p, Replaced(p, rs), offset);
  }

  /** Every page of a walk is the one the first projection would have given: if the projection
      had changed in between, the next page would have been a conflict. */
  lemma {:induction false} WalkReadsOneProjection(pager: Pager, w: Walk)
    requires WellFormed(pager) && IsWalk(pager, w)
    requires Numbered(w.Origin()) && Traceable(w) && |Filter(pager.select, w.Origin().resources)| <= U64_MAX
    ensures w.at == w.Origin()
    ensures w.page == pager.PageAt(w.Origin(), w.Offset(pager.limit))
    decreases w
  {
    match w
    case Begin(p, page) =>
    case Then(before, p, page) =>
      WalkReadsOneProjection(pager, before);
      FollowingToken(pager, w.Origin(), p, before.Offset(pager.limit));
  }

  lemma PageExtends(all: seq<Resource>, offset: nat, limit: nat)
    ensures all[..Min(offset, |all|)] + Slice(all, offset, limit) == all[..Min(offset + limit, |all|)]
    ensures |all| <= offset + limit ==> all[..Min(offset + limit, |all|)] == all
  {
  }

  /** The pages of the walk show consecutive slices of `all`. */
  ghost predicate Consecutive(all: seq<Resource>, limit: nat, w: Walk) {
    w.page.resources == Slice(all, w.Offset(limit), limit) && (w.Then? ==> Consecutive(all, limit, w.before))
  }

  lemma {:induction false} ConsecutiveGathers(all: seq<Resource>, limit: nat, w: Walk)
    requires Consecutive(all, limit, w)
    ensures w.Gathered() == all[..Min(w.Offset(limit) + limit, |all|)]
    decreases w
  {
    PageExtends(all, w.Offset(limit), limit);
    if w.Then? { ConsecutiveGathers(all, limit, w.before); }
  }

  lemma ConsecutiveIsPrefix(all: seq<Resource>, limit: nat, w: Walk)
    requires Consecutive(all, limit, w)
    ensures w.Gathered() <= all
    ensures |all| <= w.Offset(limit) + limit <==> w.Gathered() == all
  {
    ConsecutiveGathers(all, limit, w);
    PageExtends(all, w.Offset(limit), limit);
  }

  lemma {:induction false} WalkIsConsecutive(pager: Pager, w: Walk)
    requires WellFormed(pager) && IsWalk(pager, w)
    requires Numbered(w.Origin()) && Traceable(w) && |Filter(pager.select, w.Origin().resources)| <= U64_MAX
    ensures Consecutive(Filter(pager.select, w.Origin().resources), pager.limit, w)
    decreases w
  {
    WalkReadsOneProjection(pager, w);
    if w.Then? { WalkIsConsecutive(pager, w.before); }
  }

  lemma LastPageOf(pager: Pager, w: Walk)
    requires WellFormed(pager) && IsWalk(pager, w)
    requires Numbered(w.Origin()) && Traceable(w) && |Filter(pager.select, w.Origin().resources)| <= U64_MAX
    ensures w.page.next.None? <==> |Filter(pager.select, w.Origin().resources)| <= w.Offset(pager.limit) + pager.limit
  {
    WalkReadsOneProjection(pager, w);
  }

  /** The pages of a walk, put together, are the filtered projection from its start; a walk that
      ends has gathered all of it, each match once, whatever was published meanwhile. */
  lemma WalkGathersTheSnapshot(pager: Pager, w: Walk)
    requires WellFormed(pager) && IsWalk(pager, w)
    requires Numbered(w.Origin()) && Traceable(w) && |Filter(pager.select, w.Origin().resources)| <= U64_MAX
    ensures var all := Filter(pager.select, w.Origin().resources);
      && w.Gathered() <= all
      && (w.page.next.None? <==> w.Gathered() == all)
  {
    LastPageOf(pager, w);
    WalkIsConsecutive(pager, w);
    ConsecutiveIsPrefix(Filter(pager.select, w.Origin().resources), pager.limit, w);
  }

  lemma {:induction false} OffsetGrows(w: Walk, limit: nat)
    requires 0 < limit
    ensures w.Length() <= w.Offset(limit) + 1
    decreases w
  {
    if w.Then? { OffsetGrows(w.before, limit); }
  }

  /** Walks end: a page that has a successor lies strictly inside the filtered projection. */
  lemma WalkTerminates(pager: Pager, w: Walk)
    requires WellFormed(pager) && IsWalk(pager, w)
    requires Numbered(w.Origin()) && Traceable(w) && |Filter(pager.select, w.Origin().resources)| <= U64_MAX
    ensures w.page.next.Some? ==> w.Length() < |Filter(pager.select, w.Origin().resources)|
  {
    LastPageOf(pager, w);
    OffsetGrows(w, pager.limit);
  }

  lemma TwoPages(pager: Pager, p: Projection, a: Resource, b: Resource)
    requires pager.limit == 1 && p.resources == [a, b] && pager.select(a) && pager.select(b)
    ensures Filter(pager.select, p.resources) == [a, b]
    ensures pager.PageAt(p, 0).resources == [a] && pager.PageAt(p, 0).next.Some? && pager.PageAt(p, 1) == Page([b], None)
  {
    FilterAll(pager.select, [a, b]);
  }

  lemma SortedPair(c: Resource, d: Resource)
    requires KeyBefore(c, d)
    ensures SortedByKey([c, d]) == [c, d]
  {
    KeyOrder(c, d, d);
    assert [c, d][1..] == [d] && [d][1..] == [];
    assert SortedByKey([d]) == [d];
  }

  /** At the maximal generation a token passes on whatever is published next. */
  lemma SaturatedTokenPasses(pager: Pager, p: Projection, rs: seq<Resource>)
    requires WellFormed(pager) && p.generation == U64_MAX && pager.PageAt(p, 0).next.Some?
    requires |Filter(pager.select, p.resources)| <= U64_MAX
    ensures Evolves(p, Replaced(p, rs))
    ensures pager.Answer(Replaced(p, rs), pager.PageAt(p, 0).next) == Ok(pager.PageAt(Replaced(p, rs), pager.limit))
  {
    FollowingToken(pager, p, Replaced(p, rs), 0);
  }

  /** Behind a saturated counter a walk can mix two projections without a conflict. */
  lemma SaturatedWalkMixes(a: Resource, b: Resource, c: Resource, d: Resource, fingerprint: string)
    requires KeyBefore(c, d) && |fingerprint| == 64 && ':' !in fingerprint
    ensures var pager := Pager((r: Resource) => true, fingerprint, 1);
      var p := Projection(U64_MAX, [a, b]); var p' := Replaced(p, [c, d]);
      var w := Then(Begin(p, pager.PageAt(p, 0)), p', pager.PageAt(p', 1));
      && WellFormed(pager) && IsWalk(pager, w) && w.Gathered() == [a, d]
  {
    var pager := Pager((r: Resource) => true, fingerprint, 1);
    var p := Projection(U64_MAX, [a, b]);
    var p' := Replaced(p, [c, d]);
    SortedPair(c, d);
    TwoPages(pager, p, a, b);
    TwoPages(pager, p', c, d);
    SaturatedTokenPasses(pager, p, [c, d]);
  }

  // ---- Walks through the service ---------------------------------------------------------

  /** What can happen to the projection of a service between two queries. */
  datatype Publication = Replacing(replacement: seq<Resource>) | Refreshing(loaded: seq<Resource>)

  function AfterAll(p: Projection, publications: seq<Publication>): Projection
    decreases |publications|
  {
    if publications == [] then p
    else
      var n := |publications| - 1;
      var q := AfterAll(p, publications[..n]);
      match publications[n]
      case Replacing(rs) => Replaced(q, rs)
      case Refreshing(rs) => Refreshed(q, rs)
  }

  lemma {:induction false} PublicationsEvolve(p: Projection, publications: seq<Publication>)
    requires Numbered(p)
    ensures Evolves(p, AfterAll(p, publications)) && Numbered(AfterAll(p, publications))
    decreases |publications|
  {
    if publications != [] {
      var n := |publications| - 1;
      PublicationsEvolve(p, publications[..n]);
      match publications[n]
      case Replacing(rs) => PublishingEvolves(p, AfterAll(p, publications[..n]), rs);
      case Refreshing(rs) => PublishingEvolves(p, AfterAll(p, publications[..n]), rs);
    }
  }

  /** The pages are the service's answers to one query, each asked with the token of the page
      before, with any publications in between. */
  ghost predicate IsServed(env: Environment, q: Query, w: Walk) {
    match w
    case Begin(p, page) => Answer(env, p, Request(q, None)) == Ok(page)
    case Then(before, p, page) =>
      && IsServed(env, q, before) && (exists publications :: p == AfterAll(before.at, publications))
      && before.page.next.Some? && Answer(env, p, Request(q, before.page.next)) == Ok(page)
  }

  lemma {:induction false} ServedIsWalk(env: Environment, q: Query, w: Walk)
    requires IsServed(env, q, w) && Numbered(w.Origin())
    ensures RefusedQuery(env, q).None? && IsWalk(PagerFor(env, q), w) && Numbered(w.at)
    decreases w
  {
    if w.Then? {
      ServedIsWalk(env, q, w.before);
      var publications :| w.at == AfterAll(w.before.at, publications);
      PublicationsEvolve(w.before.at, publications);
    }
  }

  /** So a client of the service that follows page tokens gathers, whatever is published meanwhile,
      a prefix of what its query selected from the first projection, all of it exactly when no
      next token is left, and it gets there in a bounded number of pages. */
  lemma ServedWalkGathersTheSnapshot(env: Environment, q: Query, w: Walk)
    requires HexDigest(env) && IsServed(env, q, w) && Numbered(w.Origin()) && Traceable(w)
    requires |Filter(PagerFor(env, q).select, w.Origin().resources)| <= U64_MAX
    ensures var all := Filter(PagerFor(env, q).select, w.Origin().resources);
      && w.Gathered() <= all
      && (w.page.next.None? <==> w.Gathered() == all)
      && (w.page.next.Some? ==> w.Length() < |all|)
  {
    ServedIsWalk(env, q, w);
    AcceptedQueryPages(env, q);
    WalkGathersTheSnapshot(PagerFor(env, q), w);
    WalkTerminates(PagerFor(env, q), w);
  }

  // ---- Fingerprints ----------------------------------------------------------------------

  /** Digits before a colon end at that colon. */
  lemma DigitsThenColon(a: string, b: string, x: string, y: string)
    requires (forall c :: c in a ==> IsDigit(c)) && (forall c :: c in b ==> IsDigit(c))
    requires a + [':'] + x == b + [':'] + y
    ensures a == b && x == y
  {
    SplitFirst(a, ':', x);
    SplitFirst(b, ':', y);
    assert a == ([a] + Split(x, ':'))[0] && b == ([b] + Split(y, ':'))[0];
    assert x == (a + [':'] + x)[|a| + 1..] && y == (b + [':'] + y)[|b| + 1..];
  }

  /** A framed field can be read off the front of the text it starts. */
  lemma FramedIsPrefixFree(a: string, b: string, x: string, y: string)
    requires Framed(a) + x == Framed(b) + y
    ensures a == b && x == y
  {
    PrintIsDigits(|a|);
    PrintIsDigits(|b|);
    assert Framed(a) + x == Print(|a|) + [':'] + (a + ";" + x);
    assert Framed(b) + y == Print(|b|) + [':'] + (b + ";" + y);
    DigitsThenColon(Print(|a|), Print(|b|), a + ";" + x, b + ";" + y);
    PrintIsInjective(|a|, |b|);
    assert (a + ";" + x)[..|a|] == a && (b + ";" + y)[..|b|] == b;
    assert (a + ";" + x)[|a| + 1..] == x && (b + ";" + y)[|b| + 1..] == y;
  }

  lemma {:induction false} FramedAllIsInjective(a: seq<string>, b: seq<string>)
    requires |a| == |b| && FramedAll(a) == FramedAll(b)
    ensures a == b
    decreases |a|
  {
    if a != [] {
      FramedIsPrefixFree(a[0], b[0], FramedAll(a[1..]), FramedAll(b[1..]));
      FramedAllIsInjective(a[1..], b[1..]);
      assert a == [a[0]] + a[1..] && b == [b[0]] + b[1..];
    }
  }

  /** The same optional text; an absent one is as good as an empty one. */
  predicate SameText(a: Option<string>, b: Option<string>) {
    a == b || ((a == None || a == Some("")) && (b == None || b == Some("")))
  }

  /** Requests are fingerprinted over the same text exactly when they are the same query: so as
      long as the digest does not collide, a token is good only for the query it was issued for. */
  lemma FingerprintTextIdentifiesQuery(a: Query, b: Query)
    ensures FramedAll(QueryFields(a)) == FramedAll(QueryFields(b)) <==>
      && a.kind == b.kind && SameText(a.selector, b.selector) && SameText(a.fieldSelector, b.fieldSelector)
      && SameText(a.since, b.since) && a.limit == b.limit
  {
    var fa, fb := QueryFields(a), QueryFields(b);
    if FramedAll(fa) == FramedAll(fb) {
      FramedAllIsInjective(fa, fb);
      assert fa[0] == fb[0] && fa[1] == fb[1] && fa[2] == fb[2] && fa[3] == fb[3] && fa[4] == fb[4];
      PrintIsInjective(a.limit, b.limit);
    }
  }
}
