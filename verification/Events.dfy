/** The bounded in-memory event stream and its versioned watch. */
module Events {
  import opened Common
  import opened Sequences
  import opened Text

  const MAX_BUFFER: nat := 4_096

  datatype Event = Event(name: string, kind: string, subject: string, detail: Option<string>)

  datatype WatchItem = WatchItem(version: nat, event: Event)

  datatype WatchRequest = WatchRequest(afterVersion: Option<nat>, resourceKind: Option<string>, limit: nat)

  datatype WatchError = InvalidEvent | InvalidLimit | CursorExpired

  // ---- What was published and what is retained -------------------------------------------

  /** Every event ever published, numbered from 1. */
  ghost function Published(history: seq<Event>): (items: seq<WatchItem>)
    ensures |items| == |history|
  {
    seq(|history|, i requires 0 <= i < |history| => WatchItem(i + 1, history[i]))
  }

  /** The newest events up to the buffer size. */
  ghost predicate Retains(events: seq<WatchItem>, generation: nat, history: seq<Event>) {
    && 1 <= generation <= |history| + 1
    && events == Published(history)[generation - 1..]
    && |events| == Min(|history|, MAX_BUFFER)
  }

  lemma PublishedExtends(history: seq<Event>, event: Event)
    ensures Published(history + [event]) == Published(history) + [WatchItem(|history| + 1, event)]
  {
  }

  /** Pushing one event, and dropping the oldest if there are too many, keeps the newest. */
  lemma PushRetains(events: seq<WatchItem>, generation: nat, history: seq<Event>, event: Event)
    requires Retains(events, generation, history)
    ensures var pushed := events + [WatchItem(|history| + 1, event)];
      if |pushed| > MAX_BUFFER then Retains(pushed[1..], generation + 1, history + [event])
      else Retains(pushed, generation, history + [event])
    ensures |events| + 1 > MAX_BUFFER <==> |history| + 1 > MAX_BUFFER
  {
    PublishedExtends(history, event);
    var pushed := events + [WatchItem(|history| + 1, event)];
    assert pushed == Published(history + [event])[generation - 1..];
    assert |pushed| > MAX_BUFFER ==> pushed[1..] == Published(history + [event])[generation..];
  }

  // ---- Watching --------------------------------------------------------------------------

  function After(req: WatchRequest): nat {
    if req.afterVersion.Some? then req.afterVersion.value else 0
  }

  predicate Matches(req: WatchRequest, event: Event) {
    req.resourceKind.Some? ==>
      || Lower(event.kind) == Lower(req.resourceKind.value)
      || Lower(event.subject) == Lower(req.resourceKind.value)
  }

  function Later(req: WatchRequest): WatchItem -> bool {
    (item: WatchItem) => item.version > After(req) && Matches(req, item.event)
  }

  function Take<T>(xs: seq<T>, limit: nat): seq<T> {
    xs[..Min(|xs|, limit)]
  }

  function Watch(events: seq<WatchItem>, req: WatchRequest): Result<seq<WatchItem>, WatchError> {
    if req.limit == 0 || req.limit > MAX_BUFFER then Err(InvalidLimit)
    else if events != [] && After(req) != 0 && After(req) + 1 < events[0].version then Err(CursorExpired)
    else Ok(Take(Filter(Later(req), events), req.limit))
  }

  /** An evicted event that the request asks for. */
  ghost predicate Missed(generation: nat, history: seq<Event>, req: WatchRequest, k: nat) {
    k < |history| && After(req) <= k < generation - 1 && Matches(req, history[k])
  }

  lemma TakeShowsTheFront<T>(front: seq<T>, rest: seq<T>, limit: nat)
    requires front != [] && limit > 0 && front[0] !in rest
    ensures Take(rest, limit) != Take(front + rest, limit)
  {
    assert Take(front + rest, limit)[0] == front[0];
    assert rest != [] ==> Take(rest, limit)[0] == rest[0];
  }

  lemma DroppedPrefixShows<T>(keep: T -> bool, dropped: seq<T>, kept: seq<T>, k: nat, limit: nat)
    requires k < |dropped| && keep(dropped[k]) && limit > 0
    requires forall x :: x in dropped ==> x !in kept
    ensures Take(Filter(keep, kept), limit) != Take(Filter(keep, dropped + kept), limit)
  {
    FilterOfAppend(keep, dropped, kept);
    FilterStep(keep, dropped, k);
    FilterIsPrefix(keep, dropped, k + 1);
    FilterIsSubset(keep, dropped);
    FilterIsSubset(keep, kept);
    TakeShowsTheFront(Filter(keep, dropped), Filter(keep, kept), limit);
  }

  lemma MissedLeavesAGap(events: seq<WatchItem>, generation: nat, history: seq<Event>, req: WatchRequest, k: nat)
    requires Retains(events, generation, history) && 0 < req.limit && Missed(generation, history, req, k)
    ensures Take(Filter(Later(req), events), req.limit) != Take(Filter(Later(req), Published(history)), req.limit)
  {
    var all, n := Published(history), generation - 1;
    assert all == all[..n] + events && all[..n][k] == all[k];
    forall item | item in all[..n]
      ensures item !in events
    {
      assert item.version <= n;
    }
    DroppedPrefixShows(Later(req), all[..n], events, k, req.limit);
  }

  lemma OldestRetained(events: seq<WatchItem>, generation: nat, history: seq<Event>)
    requires Retains(events, generation, history)
    ensures events == [] <==> history == []
    ensures events != [] ==> events[0].version == generation
    ensures history == [] ==> generation == 1
  {
  }

  lemma ConflictsBelowTheBuffer(events: seq<WatchItem>, generation: nat, history: seq<Event>, req: WatchRequest)
    requires Retains(events, generation, history) && 0 < req.limit <= MAX_BUFFER
    ensures Watch(events, req) == Err(CursorExpired) <==> 0 < After(req) < generation - 1
    ensures Watch(events, req).Ok? ==> Watch(events, req).value == Take(Filter(Later(req), events), req.limit)
  {
    OldestRetained(events, generation, history);
  }

  lemma NoneMissedShowsAll(events: seq<WatchItem>, generation: nat, history: seq<Event>, req: WatchRequest)
    requires Retains(events, generation, history) && forall k :: !Missed(generation, history, req, k)
    ensures Filter(Later(req), events) == Filter(Later(req), Published(history))
  {
    var all, n, keep := Published(history), generation - 1, Later(req);
    assert all == all[..n] + events;
    forall item | item in all[..n]
      ensures !keep(item)
    {
      var k :| 0 <= k < n && item == all[k];
      assert !Missed(generation, history, req, k);
    }
    FilterOfAppend(keep, all[..n], events);
    FilterNone(keep, all[..n]);
    assert [] + Filter(keep, events) == Filter(keep, events);
  }

  /** The whole behaviour of a watch. It conflicts exactly when it names a version below the last
      evicted one. Any other watch from a named version shows, without a gap, the oldest wanted
      events published after it. A watch from the start never conflicts, so it shows the oldest
      wanted events exactly when no wanted event was evicted. */
  lemma WatchSkipsExactlyFromTheStart(events: seq<WatchItem>, generation: nat, history: seq<Event>, req: WatchRequest)
    requires Retains(events, generation, history) && 0 < req.limit <= MAX_BUFFER
    ensures Watch(events, req) == Err(CursorExpired) <==> 0 < After(req) < generation - 1
    ensures Watch(events, req).Ok? ==>
      (Watch(events, req).value == Take(Filter(Later(req), Published(history)), req.limit)
       <==> (After(req) != 0 || forall k :: !Missed(generation, history, req, k)))
  {
    ConflictsBelowTheBuffer(events, generation, history, req);
    if forall k :: !Missed(generation, history, req, k) {
      NoneMissedShowsAll(events, generation, history, req);
    } else {
      var k :| Missed(generation, history, req, k);
      MissedLeavesAGap(events, generation, history, req, k);
    }
  }

  /** Without a kind filter the caller can tell from the generation: a watch from the start shows
      the oldest events if and only if the stream is still in its first generation. */
  lemma UnfilteredWatchFromTheStart(events: seq<WatchItem>, generation: nat, history: seq<Event>, req: WatchRequest)
    requires Retains(events, generation, history) && 0 < req.limit <= MAX_BUFFER
    requires After(req) == 0 && req.resourceKind.None?
    ensures Watch(events, req) == Ok(Take(Published(history), req.limit)) <==> generation == 1
  {
    WatchSkipsExactlyFromTheStart(events, generation, history, req);
    FilterAll(Later(req), Published(history));
    if generation > 1 {
      assert Missed(generation, history, req, 0);
    }
  }

  /** The first event is lost to a reader from the start once one more than a buffer is published. */
  lemma OneOverflowIsSilent(event: Event)
    ensures var history := seq(MAX_BUFFER + 1, _ => event); var req := WatchRequest(None, None, 1);
      && Retains(Published(history)[1..], 2, history)
      && Watch(Published(history)[1..], req) == Ok([WatchItem(2, event)])
  {
    var history := seq(MAX_BUFFER + 1, _ => event);
    var req := WatchRequest(None, None, 1);
    var events := Published(history)[1..];
    FilterAll(Later(req), events);
    assert Take(events, 1) == [WatchItem(2, event)];
  }

  /** A request without a version starts at the beginning; without a kind it wants every event, and
      with one those whose kind or subject it is, up to case. */
  lemma RequestMeans(req: WatchRequest, event: Event)
    ensures req.afterVersion.None? ==> After(req) == 0
    ensures req.afterVersion.Some? ==> After(req) == req.afterVersion.value
    ensures Matches(req, event) <==>
      req.resourceKind.None? || SameLetters(event.kind, req.resourceKind.value) || SameLetters(event.subject, req.resourceKind.value)
  {
    if req.resourceKind.Some? {
      LowerMeans(event.kind, req.resourceKind.value);
      LowerMeans(event.subject, req.resourceKind.value);
    }
  }

  /** A watch shows only retained wanted events after its version, at most `limit` of them; it is
      refused exactly for a limit outside 1 to 4096. */
  lemma WatchShowsOnlyWanted(events: seq<WatchItem>, req: WatchRequest, item: WatchItem)
    ensures Watch(events, req) == Err(InvalidLimit) <==> req.limit < 1 || req.limit > 4096
    ensures Watch(events, req).Ok? ==> |Watch(events, req).value| <= req.limit
    ensures Watch(events, req).Ok? && item in Watch(events, req).value ==>
      && item in events && item.version > After(req)
      && (req.resourceKind.Some? ==>
            SameLetters(item.event.kind, req.resourceKind.value) || SameLetters(item.event.subject, req.resourceKind.value))
  {
    FilterIsSubset(Later(req), events);
    RequestMeans(req, item.event);
    assert Watch(events, req).Ok? && item in Watch(events, req).value ==> item in Filter(Later(req), events);
  }

  // ---- The stream ------------------------------------------------------------------------

  class EventStream {
    const accepts: Event -> bool
    var generation: nat
    var nextVersion: nat
    var events: seq<WatchItem>
    ghost var history: seq<Event>

    ghost predicate Valid()
      reads this
    {
      nextVersion == |history| + 1 && Retains(events, generation, history)
    }

    constructor (accepts: Event -> bool)
      ensures Valid() && this.accepts == accepts && history == []
    {
      this.accepts := accepts;
      generation, nextVersion, events, history := 1, 1, [], [];
    }

    /** Accepted events get consecutive versions; the buffer keeps the newest ones. */
    method Publish(event: Event) returns (r: Result<nat, WatchError>)
      requires Valid()
      modifies this
      ensures Valid()
      ensures !accepts(event) ==>
        r == Err(InvalidEvent) && history == old(history) && generation == old(generation)
      ensures accepts(event) ==>
        && history == old(history) + [event] && r == Ok(|history|)
        && generation == old(generation) + (if |history| > MAX_BUFFER then 1 else 0)
    {
      if !accepts(event) {
        return Err(InvalidEvent);
      }
      var version := nextVersion;
      nextVersion := nextVersion + 1;
      PushRetains(events, generation, history, event);
      events := events + [WatchItem(version, event)];
      history := history + [event];
      if |events| > MAX_BUFFER {
        events := events[1..];
        generation := generation + 1;
      }
      r := Ok(version);
    }
  }
}
