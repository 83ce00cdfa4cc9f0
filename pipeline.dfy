/**
 `fetchCoinData`: the listing is fetched page by page (each page through the
 listing retry policy), the checkpoint file is read to decide where to resume,
 the resume loop runs over the whole listing, and the document it returns is
 written once to the final data file. Any exception on the way (a rethrown or
 exhausted listing fetch, a page whose `length` cannot be read, a coin that is
 `undefined` or `null`) ends the run in the outer `catch`, which only logs.
 */
module Pipeline {
  import opened Opt
  import opened Dict
  import opened Json
  import opened Retry
  import opened Aggregate
  import opened Events
  import opened Resume

  /** `maxPages`: the last listing page requested. */
  const MaxPages: int := 1

  /** `data.length === 0` on the body of a listing page; `None` where reading
      `length` throws. A string has a length, an object may have a `length`
      property, and a number or a boolean reads it as `undefined`. */
  function IsEmptyPage(data: JsonValue): Option<bool> {
    match data
    case Undefined => None
    case Null => None
    case Arr(xs) => Some(|xs| == 0)
    case Str(s) => Some(|s| == 0)
    case Obj(_) => Some(Member(data, "length") == Num(0))
    case _ => Some(false)
  }

  /** What `allCoins.concat(data)` appends: the elements of an array, any other
      value as a single element. */
  function PageItems(data: JsonValue): seq<JsonValue> {
    if data.Arr? then data.elems else [data]
  }

  /** The accumulated listing, or the failure of the loop by an exception. */
  datatype Listing = Listed(coins: seq<JsonValue>) | ListingFailed

  /** The outcome and the events of the pagination loop from some page on. */
  datatype Paged<Doc> = Paged(listing: Listing, trace: seq<Event<Doc>>)

  /** The events of one page request: the request itself and the backoff waits of
      the listing retry policy when it receives the answers `answer`. */
  function PageRequest<Doc>(answer: Answers, page: int): seq<Event<Doc>> {
    [FetchPage(page)] + BackoffEvents(Waits(InitialDelay, ListingBackoff, LeadingRateLimits(answer, Ceiling(DefaultRetries))))
  }

  /** Put the listing items and events of earlier pages in front of the rest. */
  function Prepend<Doc>(items: seq<JsonValue>, events: seq<Event<Doc>>, rest: Paged<Doc>): Paged<Doc> {
    Paged(if rest.listing.Listed? then Listed(items + rest.listing.coins) else ListingFailed, events + rest.trace)
  }

  /** How page `page` ends the loop or lets it go on: `None` where the loop throws
      (the fetch failed or `length` cannot be read), `Some(true)` for an empty page,
      `Some(false)` for a page that is appended. */
  function PageOutcome(pages: nat -> Answers, page: nat): Option<bool> {
    match FetchResult(pages(page), DefaultRetries)
    case Data(data) => IsEmptyPage(data)
    case _ => None
  }

  /** What page `page` adds to the listing: its items when it is appended. */
  function Contribution(pages: nat -> Answers, page: nat): seq<JsonValue> {
    match FetchResult(pages(page), DefaultRetries)
    case Data(data) => if IsEmptyPage(data) == Some(false) then PageItems(data) else []
    case _ => []
  }

  /**
   The pagination loop entered at `page`, where `pages(p)` are the answers to the
   attempts at page `p`: a page that is not fetched or whose `length` cannot be
   read ends the loop by an exception, an empty page ends it normally, and any
   other page is appended, followed by the 30-second pause when another page
   remains within `maxPages`.
   */
  function Paginate<Doc>(pages: nat -> Answers, page: nat, maxPages: int): Paged<Doc>
    decreases maxPages - page
  {
    if maxPages < page then Paged(Listed([]), [])
    else
      var head := PageRequest<Doc>(pages(page), page);
      match PageOutcome(pages, page)
      case None => Paged(ListingFailed, head)
      case Some(true) => Paged(Listed([]), head)
      case Some(false) =>
        var pause: seq<Event<Doc>> := if page + 1 <= maxPages then [Pause(PagePause)] else [];
        Prepend(Contribution(pages, page), head + pause, Paginate(pages, page + 1, maxPages))
  }

  lemma PrependPrepend<Doc>(a: seq<JsonValue>, t: seq<Event<Doc>>, b: seq<JsonValue>, u: seq<Event<Doc>>, rest: Paged<Doc>)
    ensures Prepend(a, t, Prepend(b, u, rest)) == Prepend(a + b, t + u, rest)
  {
    assert t + (u + rest.trace) == (t + u) + rest.trace;
    if rest.listing.Listed? {
      assert a + (b + rest.listing.coins) == (a + b) + rest.listing.coins;
    }
  }

  /** A non-empty page contributes its items, its request and, when another page
      remains, the pause; the rest of the loop follows. */
  lemma PaginateNext<Doc>(pages: nat -> Answers, page: nat, maxPages: int)
    requires page <= maxPages && PageOutcome(pages, page) == Some(false)
    ensures Paginate<Doc>(pages, page, maxPages) ==
      Prepend(Contribution(pages, page), PageRequest(pages(page), page) + (if page + 1 <= maxPages then [Pause(PagePause)] else []),
              Paginate(pages, page + 1, maxPages))
  {
  }

  /** A page that is empty, not fetched or without a readable `length` ends the
      loop with its request: the listing so far when the page is empty, a failure
      otherwise. */
  lemma PaginateEnds<Doc>(allCoins: seq<JsonValue>, before: seq<Event<Doc>>, pages: nat -> Answers, page: nat, maxPages: int)
    requires page <= maxPages && PageOutcome(pages, page) != Some(false)
    ensures Prepend(allCoins, before, Paginate<Doc>(pages, page, maxPages)) ==
      Paged(if PageOutcome(pages, page) == Some(true) then Listed(allCoins) else ListingFailed, before + PageRequest(pages(page), page))
  {
    if PageOutcome(pages, page) == Some(true) {
      assert allCoins + [] == allCoins;
    }
  }

  /** Going past a page that is appended moves its items and events from the rest
      of the loop to what has been accumulated. */
  lemma PaginateMoves<Doc>(allCoins: seq<JsonValue>, before: seq<Event<Doc>>, pages: nat -> Answers, page: nat, maxPages: int)
    requires page <= maxPages && PageOutcome(pages, page) == Some(false)
    ensures Prepend(allCoins, before, Paginate<Doc>(pages, page, maxPages)) ==
      Prepend(allCoins + Contribution(pages, page),
              before + PageRequest(pages(page), page) + (if page + 1 <= maxPages then [Pause(PagePause)] else []),
              Paginate(pages, page + 1, maxPages))
  {
    var pause: seq<Event<Doc>> := if page + 1 <= maxPages then [Pause(PagePause)] else [];
    PaginateNext<Doc>(pages, page, maxPages);
    PrependPrepend(allCoins, before, Contribution(pages, page), PageRequest(pages(page), page) + pause, Paginate(pages, page + 1, maxPages));
    assert before + (PageRequest<Doc>(pages(page), page) + pause) == before + PageRequest(pages(page), page) + pause;
  }

  /** One page request through the listing retry policy: the request, then the
      waits of the retries. */
  method RequestPage<Doc>(pages: nat -> Answers, page: nat) returns (r: Fetched, events: seq<Event<Doc>>)
    ensures r == FetchResult(pages(page), DefaultRetries)
    ensures events == PageRequest(pages(page), page)
  {
    events := [FetchPage(page)];
    var sleeps;
    r, sleeps := FetchWithRetry(pages(page), DefaultRetries, InitialDelay);
    events := events + BackoffEvents(sleeps);
  }

  /** The `while (page <= maxPages)` loop of `fetchCoinData`, from page 1. */
  method FetchListing<Doc>(pages: nat -> Answers, maxPages: int) returns (p: Paged<Doc>)
    ensures p == Paginate(pages, 1, maxPages)
  {
    var allCoins: seq<JsonValue> := [];
    var trace: seq<Event<Doc>> := [];
    var page: nat := 1;
    while page <= maxPages
      invariant Prepend(allCoins, trace, Paginate(pages, page, maxPages)) == Paginate(pages, 1, maxPages)
      decreases maxPages - page
    {
      ghost var before := trace;
      var r, events := RequestPage<Doc>(pages, page);
      trace := trace + events;
      if !r.Data? {
        PaginateEnds(allCoins, before, pages, page, maxPages);
        return Paged(ListingFailed, trace);
      }
      var empty := IsEmptyPage(r.value);
      if empty.None? {
        PaginateEnds(allCoins, before, pages, page, maxPages);
        return Paged(ListingFailed, trace);
      }
      if empty.value {
        PaginateEnds(allCoins, before, pages, page, maxPages);
        return Paged(Listed(allCoins), trace);
      }
      PaginateMoves(allCoins, before, pages, page, maxPages);
      assert Contribution(pages, page) == PageItems(r.value);
      allCoins := allCoins + PageItems(r.value);
      page := page + 1;
      if page <= maxPages {
        trace := trace + [Pause(PagePause)];
      }
    }
    assert allCoins + [] == allCoins && trace + [] == trace;
    p := Paged(Listed(allCoins), trace);
  }

  /** The pages requested, in the order of the requests. */
  function PageRequests<Doc>(trace: seq<Event<Doc>>): (ps: seq<int>)
    ensures |ps| <= |trace|
  {
    if trace == [] then []
    else (if trace[0].FetchPage? then [trace[0].page] else []) + PageRequests(trace[1..])
  }

  lemma {:induction false} PageRequestsAppend<Doc>(a: seq<Event<Doc>>, b: seq<Event<Doc>>)
    ensures PageRequests(a + b) == PageRequests(a) + PageRequests(b)
  {
    if a != [] {
      assert (a + b)[0] == a[0];
      assert (a + b)[1..] == a[1..] + b;
      PageRequestsAppend(a[1..], b);
    } else {
      assert a + b == b;
    }
  }

  lemma {:induction false} NoRequestInBackoff<Doc>(waits: seq<int>)
    ensures PageRequests(BackoffEvents<Doc>(waits)) == []
  {
    if waits != [] {
      assert BackoffEvents<Doc>(waits)[1..] == BackoffEvents<Doc>(waits[1..]);
      NoRequestInBackoff<Doc>(waits[1..]);
    }
  }

  /** A page request asks for that page once. */
  lemma RequestedPage<Doc>(answer: Answers, page: int)
    ensures PageRequests(PageRequest<Doc>(answer, page)) == [page]
  {
    var waits := Waits(InitialDelay, ListingBackoff, LeadingRateLimits(answer, Ceiling(DefaultRetries)));
    var request: seq<Event<Doc>> := [FetchPage(page)];
    PageRequestsAppend(request, BackoffEvents(waits));
    NoRequestInBackoff<Doc>(waits);
    assert request[1..] == [];
  }

  /** A request for `page`, possibly a pause, then requests for the pages after it. */
  lemma RequestsOfStep<Doc>(head: seq<Event<Doc>>, pause: seq<Event<Doc>>, rest: seq<Event<Doc>>, page: nat, hi: nat)
    requires page < hi
    requires PageRequests(head) == [page] && (pause == [] || pause == [Pause(PagePause)])
    requires PageRequests(rest) == Span(page + 1, hi)
    ensures PageRequests(head + pause + rest) == Span(page, hi)
  {
    PageRequestsAppend(head + pause, rest);
    PageRequestsAppend(head, pause);
    if pause != [] {
      assert pause[1..] == [];
    }
    assert head + pause + rest == (head + pause) + rest;
    assert [page as int] + Span(page + 1, hi) == Span(page, hi);
  }

  /** How many pages the loop entered at `page` requests, read off the page
      outcomes alone: it goes on past a page only when that page is appended. */
  function Requested(pages: nat -> Answers, page: nat, maxPages: int): nat
    decreases maxPages - page
  {
    if maxPages < page then 0
    else if PageOutcome(pages, page) == Some(false) then 1 + Requested(pages, page + 1, maxPages)
    else 1
  }

  /** The listing the loop entered at `page` ends with, read off the page outcomes
      alone. */
  function ListingOf(pages: nat -> Answers, page: nat, maxPages: int): Listing
    decreases maxPages - page
  {
    if maxPages < page then Listed([])
    else match PageOutcome(pages, page)
      case None => ListingFailed
      case Some(true) => Listed([])
      case Some(false) =>
        var rest := ListingOf(pages, page + 1, maxPages);
        if rest.Listed? then Listed(Contribution(pages, page) + rest.coins) else ListingFailed
  }

  /** The loop requests the pages `page`, `page + 1`, ... in order, `Requested` of them. */
  lemma {:induction false} RequestsSpan<Doc>(pages: nat -> Answers, page: nat, maxPages: int)
    ensures PageRequests(Paginate<Doc>(pages, page, maxPages).trace) == Span(page, page + Requested(pages, page, maxPages))
    decreases maxPages - page
  {
    var p := Paginate<Doc>(pages, page, maxPages);
    var n := Requested(pages, page, maxPages);
    if page <= maxPages {
      var head := PageRequest<Doc>(pages(page), page);
      RequestedPage<Doc>(pages(page), page);
      if PageOutcome(pages, page) == Some(false) {
        var pause: seq<Event<Doc>> := if page + 1 <= maxPages then [Pause(PagePause)] else [];
        var rest := Paginate<Doc>(pages, page + 1, maxPages);
        var m := Requested(pages, page + 1, maxPages);
        PaginateNext<Doc>(pages, page, maxPages);
        assert p.trace == head + pause + rest.trace;
        assert n == 1 + m;
        RequestsSpan<Doc>(pages, page + 1, maxPages);
        RequestsOfStep(head, pause, rest.trace, page, page + 1 + m);
      } else {
        assert p.trace == head && n == 1;
        SpanOne(page);
      }
    } else {
      assert p.trace == [] && n == 0;
    }
  }

  lemma SpanOne(page: nat)
    ensures Span(page, page + 1) == [page]
  {
  }

  /** The loop requests no page past `maxPages`, and at least one when it starts
      within it. */
  lemma {:induction false} RequestedBounds(pages: nat -> Answers, page: nat, maxPages: int)
    ensures maxPages < page ==> Requested(pages, page, maxPages) == 0
    ensures page <= maxPages ==> 0 < Requested(pages, page, maxPages) <= maxPages + 1 - page
    decreases maxPages - page
  {
    if page <= maxPages && PageOutcome(pages, page) == Some(false) {
      RequestedBounds(pages, page + 1, maxPages);
    }
  }

  /** Pages are requested one after the other from `page` on, and none beyond
      `maxPages`; at least one is requested when `page <= maxPages`. */
  lemma PagesInOrder<Doc>(pages: nat -> Answers, page: nat, maxPages: int)
    ensures var rs := PageRequests(Paginate<Doc>(pages, page, maxPages).trace);
      && rs == Span(page, page + |rs|)
      && (maxPages < page ==> rs == [])
      && (page <= maxPages ==> 0 < |rs| <= maxPages + 1 - page)
  {
    RequestsSpan<Doc>(pages, page, maxPages);
    RequestedBounds(pages, page, maxPages);
  }

  /** The contributions of the pages `page .. page + n - 1`, in page order. */
  function Contributions(pages: nat -> Answers, page: nat, n: nat): seq<JsonValue>
    decreases n
  {
    if n == 0 then [] else Contribution(pages, page) + Contributions(pages, page + 1, n - 1)
  }

  /** The loop requests `Requested` pages and ends with `ListingOf`. */
  lemma {:induction false} PaginateSummary<Doc>(pages: nat -> Answers, page: nat, maxPages: int)
    ensures |PageRequests(Paginate<Doc>(pages, page, maxPages).trace)| == Requested(pages, page, maxPages)
    ensures Paginate<Doc>(pages, page, maxPages).listing == ListingOf(pages, page, maxPages)
    decreases maxPages - page
  {
    RequestsSpan<Doc>(pages, page, maxPages);
    if page <= maxPages && PageOutcome(pages, page) == Some(false) {
      var rest := Paginate<Doc>(pages, page + 1, maxPages);
      PaginateNext<Doc>(pages, page, maxPages);
      PaginateSummary<Doc>(pages, page + 1, maxPages);
      assert Paginate<Doc>(pages, page, maxPages).listing ==
        (if rest.listing.Listed? then Listed(Contribution(pages, page) + rest.listing.coins) else ListingFailed);
    }
  }

  lemma {:induction false} ListingOfContents(pages: nat -> Answers, page: nat, maxPages: int)
    ensures var n := Requested(pages, page, maxPages);
      && (forall q :: page <= q < page + n - 1 ==> PageOutcome(pages, q) == Some(false))
      && (ListingOf(pages, page, maxPages).Listed? ==> ListingOf(pages, page, maxPages).coins == Contributions(pages, page, n))
    decreases maxPages - page
  {
    if page <= maxPages {
      if PageOutcome(pages, page) == Some(false) {
        ListingOfContents(pages, page + 1, maxPages);
      } else {
        assert Contributions(pages, page, 1) == Contribution(pages, page) + [];
      }
    }
  }

  lemma {:induction false} ListingOfEnd(pages: nat -> Answers, page: nat, maxPages: int)
    ensures var n := Requested(pages, page, maxPages);
      && (0 < n ==> (ListingOf(pages, page, maxPages).ListingFailed? <==> PageOutcome(pages, page + n - 1).None?))
      && (0 < n && ListingOf(pages, page, maxPages).Listed? ==> PageOutcome(pages, page + n - 1) == Some(true) || page + n - 1 == maxPages)
    decreases maxPages - page
  {
    if page <= maxPages && PageOutcome(pages, page) == Some(false) {
      ListingOfEnd(pages, page + 1, maxPages);
    }
  }

  /** The listing is the concatenation, in page order, of the pages requested, and
      every requested page but the last is appended. */
  lemma ListingFromPages<Doc>(pages: nat -> Answers, page: nat, maxPages: int)
    ensures var p := Paginate<Doc>(pages, page, maxPages);
      var n := |PageRequests(p.trace)|;
      && (forall q :: page <= q < page + n - 1 ==> PageOutcome(pages, q) == Some(false))
      && (p.listing.Listed? ==> p.listing.coins == Contributions(pages, page, n))
  {
    PaginateSummary<Doc>(pages, page, maxPages);
    ListingOfContents(pages, page, maxPages);
  }

  /** The loop fails exactly when the last requested page throws, and otherwise
      stops at an empty page or at `maxPages`. */
  lemma HowListingEnds<Doc>(pages: nat -> Answers, page: nat, maxPages: int)
    ensures var p := Paginate<Doc>(pages, page, maxPages);
      var n := |PageRequests(p.trace)|;
      && (0 < n ==> (p.listing.ListingFailed? <==> PageOutcome(pages, page + n - 1).None?))
      && (0 < n && p.listing.Listed? ==> PageOutcome(pages, page + n - 1) == Some(true) || page + n - 1 == maxPages)
  {
    PaginateSummary<Doc>(pages, page, maxPages);
    ListingOfEnd(pages, page, maxPages);
  }

  /** The events the pagination loop can produce. */
  predicate ListingEvent<Doc>(e: Event<Doc>) {
    e.FetchPage? || e.Backoff? || e.Pause?
  }

  /** Every pause is followed at once by a page request: there is no pause after
      the last request. */
  predicate PausesLeadToRequests<Doc>(t: seq<Event<Doc>>) {
    forall k :: 0 <= k < |t| && t[k].Pause? ==> k + 1 < |t| && t[k + 1].FetchPage?
  }

  /** A page request is the request followed by backoff waits. */
  lemma RequestShape<Doc>(answer: Answers, page: int)
    ensures PageRequest<Doc>(answer, page)[0] == FetchPage(page)
    ensures forall k :: 0 <= k < |PageRequest<Doc>(answer, page)| ==>
      ListingEvent(PageRequest<Doc>(answer, page)[k]) && !PageRequest<Doc>(answer, page)[k].Pause?
  {
    var waits := Waits(InitialDelay, ListingBackoff, LeadingRateLimits(answer, Ceiling(DefaultRetries)));
    BackoffEventsAre<Doc>(waits);
    var head := PageRequest<Doc>(answer, page);
    forall k | 0 <= k < |head| ensures ListingEvent(head[k]) && !head[k].Pause? {
      if 0 < k {
        assert head[k] == BackoffEvents<Doc>(waits)[k - 1];
      }
    }
  }

  lemma PausesOfStep<Doc>(head: seq<Event<Doc>>, pause: seq<Event<Doc>>, rest: seq<Event<Doc>>)
    requires forall k :: 0 <= k < |head| ==> !head[k].Pause?
    requires pause == [] || (pause == [Pause(PagePause)] && rest != [] && rest[0].FetchPage?)
    requires PausesLeadToRequests(rest)
    ensures PausesLeadToRequests(head + pause + rest)
  {
    var t := head + pause + rest;
    forall k | 0 <= k < |t| && t[k].Pause? ensures k + 1 < |t| && t[k + 1].FetchPage? {
      if |head| + |pause| <= k {
        assert t[k] == rest[k - |head| - |pause|];
        assert t[k + 1] == rest[k + 1 - |head| - |pause|];
      } else if |head| <= k {
        assert t[k + 1] == rest[0];
      }
    }
  }

  /** The 30-second pause falls only between two page requests, and the loop
      entered at a page it may request starts by requesting it. */
  lemma {:induction false} PausesBetweenRequests<Doc>(pages: nat -> Answers, page: nat, maxPages: int)
    ensures PausesLeadToRequests(Paginate<Doc>(pages, page, maxPages).trace)
    ensures page <= maxPages ==>
      var t := Paginate<Doc>(pages, page, maxPages).trace;
      t != [] && t[0] == FetchPage(page)
    decreases maxPages - page
  {
    if page <= maxPages {
      var head := PageRequest<Doc>(pages(page), page);
      RequestShape<Doc>(pages(page), page);
      var p := Paginate<Doc>(pages, page, maxPages);
      if PageOutcome(pages, page) == Some(false) {
        var pause: seq<Event<Doc>> := if page + 1 <= maxPages then [Pause(PagePause)] else [];
        var rest := Paginate<Doc>(pages, page + 1, maxPages);
        PaginateNext<Doc>(pages, page, maxPages);
        PausesBetweenRequests<Doc>(pages, page + 1, maxPages);
        PausesOfStep(head, pause, rest.trace);
        assert p.trace == head + pause + rest.trace;
        assert p.trace[0] == head[0];
      } else {
        assert p.trace == head;
        PausesOfStep(head, [], []);
        assert head + [] + [] == head;
      }
    }
  }

  /** A trace made only of the events of the pagination loop. */
  predicate ListingTrace<Doc>(t: seq<Event<Doc>>) {
    forall k :: 0 <= k < |t| ==> ListingEvent(t[k])
  }

  /** Concatenating traces of the pagination loop gives one. */
  lemma ListingTraceAppend<Doc>(a: seq<Event<Doc>>, b: seq<Event<Doc>>)
    requires ListingTrace(a) && ListingTrace(b)
    ensures ListingTrace(a + b)
  {
    var t := a + b;
    forall k | 0 <= k < |t| ensures ListingEvent(t[k]) {
      if k < |a| {
        assert t[k] == a[k];
      } else {
        assert t[k] == b[k - |a|];
      }
    }
  }

  /** The pagination loop only requests pages, backs off and pauses. */
  lemma {:induction false} ListingEventsOnly<Doc>(pages: nat -> Answers, page: nat, maxPages: int)
    ensures ListingTrace(Paginate<Doc>(pages, page, maxPages).trace)
    decreases maxPages - page
  {
    if page <= maxPages {
      var head := PageRequest<Doc>(pages(page), page);
      RequestShape<Doc>(pages(page), page);
      assert ListingTrace(head);
      if PageOutcome(pages, page) == Some(false) {
        var pause: seq<Event<Doc>> := if page + 1 <= maxPages then [Pause(PagePause)] else [];
        var rest := Paginate<Doc>(pages, page + 1, maxPages).trace;
        PaginateNext<Doc>(pages, page, maxPages);
        ListingEventsOnly<Doc>(pages, page + 1, maxPages);
        assert ListingTrace(pause);
        ListingTraceAppend(head, pause);
        ListingTraceAppend(head + pause, rest);
      }
    }
  }

  /** The listing adds no checkpoint and no data write in front of what follows it. */
  lemma AfterListing<Doc>(listing: seq<Event<Doc>>, rest: seq<Event<Doc>>, file: string)
    requires ListingTrace(listing)
    ensures Checkpoints(listing + rest) == Checkpoints(rest)
    ensures WritesOnlyTo(rest, file) ==> WritesOnlyTo(listing + rest, file)
  {
    NoCheckpoints(listing);
    CheckpointsAppend(listing, rest);
    var u := listing + rest;
    if WritesOnlyTo(rest, file) {
      forall k | 0 <= k < |u| ensures u[k].WriteData? ==> u[k].file == file {
        if k < |listing| {
          assert u[k] == listing[k];
        } else {
          assert u[k] == rest[k - |listing|];
        }
      }
    }
  }

  /** The listing leaves the last event of what follows it the last event, and adds
      no data write before it. */
  lemma LastAfterListing<Doc>(listing: seq<Event<Doc>>, rest: seq<Event<Doc>>, last: Event<Doc>)
    requires ListingTrace(listing)
    requires rest != [] && rest[|rest| - 1] == last && WritesOnlyTo(rest[..|rest| - 1], InLoopDataFile)
    ensures var t := listing + rest;
      t != [] && t[|t| - 1] == last && WritesOnlyTo(t[..|t| - 1], InLoopDataFile)
  {
    var t := listing + rest;
    AfterListing(listing, rest[..|rest| - 1], InLoopDataFile);
    assert t[..|t| - 1] == listing + rest[..|rest| - 1];
  }

  /** `startIndex`: one past the index recorded in the checkpoint file, or 0 when
      there is none. */
  function StartIndex(checkpoint: Option<nat>): nat {
    match checkpoint
    case Some(last) => last + 1
    case None => 0
  }

  /** The events of a whole run: the listing, then (when it was fetched) the resume
      loop from the checkpoint on, then (when the loop reached the end of the
      listing) the single write of the final data file. */
  function RunTrace(pages: nat -> Answers, checkpoint: Option<nat>, env: Environment): seq<Event<Entries<Coin>>> {
    var listing := Paginate<Entries<Coin>>(pages, 1, MaxPages);
    match listing.listing
    case ListingFailed => listing.trace
    case Listed(coins) => listing.trace + ResumeTrace(coins, StartIndex(checkpoint), env)
  }

  /** What the run writes to the final data file after the listing: the document
      of the resume loop from `start`, when it went past the last coin. */
  function ResumeSaved(coins: seq<JsonValue>, start: nat, env: Environment): Option<Entries<Coin>> {
    var stop := Stop(coins, start);
    if stop < |coins| then None else Some(DocAfter(coins, start, stop, env))
  }

  /** The events after the listing: the resume loop from `start`, then the final
      write of what it saved. */
  function ResumeTrace(coins: seq<JsonValue>, start: nat, env: Environment): seq<Event<Entries<Coin>>> {
    TraceAfter(coins, start, Stop(coins, start), env)
      + (match ResumeSaved(coins, start, env) case Some(doc) => [WriteData(FinalDataFile, doc)] case None => [])
  }

  /**
   `fetchCoinData`: fetch the listing, read the checkpoint, run the resume loop and
   write its document to the final data file; an exception anywhere ends the run
   with what has been written so far.
   */
  method FetchCoinData(pages: nat -> Answers, checkpoint: Option<nat>, env: Environment) returns (trace: seq<Event<Entries<Coin>>>)
    ensures trace == RunTrace(pages, checkpoint, env)
  {
    var listing := FetchListing<Entries<Coin>>(pages, MaxPages);
    trace := listing.trace;
    if listing.listing.ListingFailed? {
      return;
    }
    var allCoins := listing.listing.coins;
    var startIndex := 0;
    if checkpoint.Some? {
      startIndex := checkpoint.value + 1;
    }
    assert startIndex == StartIndex(checkpoint);
    var r, loopTrace := ProcessCoins(allCoins, startIndex, env);
    ghost var listingTrace := trace;
    trace := trace + loopTrace;
    if r.Completed? {
      trace := trace + [WriteData(FinalDataFile, r.doc)];
      assert ResumeSaved(allCoins, startIndex, env) == Some(r.doc);
      assert loopTrace + [WriteData(FinalDataFile, r.doc)] == ResumeTrace(allCoins, startIndex, env);
    } else {
      assert ResumeSaved(allCoins, startIndex, env) == None;
      assert loopTrace + [] == ResumeTrace(allCoins, startIndex, env);
    }
    assert trace == listingTrace + ResumeTrace(allCoins, startIndex, env);
  }

  /** After the listing, the checkpoints are those of the resume loop. */
  lemma ResumeTraceCheckpoints(coins: seq<JsonValue>, start: nat, env: Environment)
    ensures Checkpoints(ResumeTrace(coins, start, env)) == Span(start, Stop(coins, start))
  {
    var loop := TraceAfter(coins, start, Stop(coins, start), env);
    var last: seq<Event<Entries<Coin>>> := match ResumeSaved(coins, start, env) case Some(doc) => [WriteData(FinalDataFile, doc)] case None => [];
    ResumeCheckpoints(coins, start, env);
    NoCheckpoints(last);
    CheckpointsAppend(loop, last);
  }

  /** After the listing, the saved document is written last and the loop's own
      writes go to the in-loop file. */
  lemma ResumeTraceWrites(coins: seq<JsonValue>, start: nat, env: Environment)
    ensures var t := ResumeTrace(coins, start, env);
      if ResumeSaved(coins, start, env).Some? then
        && t != []
        && t[|t| - 1] == WriteData(FinalDataFile, ResumeSaved(coins, start, env).value)
        && WritesOnlyTo(t[..|t| - 1], InLoopDataFile)
      else
        WritesOnlyTo(t, InLoopDataFile)
  {
    var stop := Stop(coins, start);
    var loop := TraceAfter(coins, start, stop, env);
    IterationsWriteInLoop(start, IdsFrom(env, start, stop), MergedFrom(coins, start, stop, env), WaitsFrom(env, start, stop));
    var t := ResumeTrace(coins, start, env);
    match ResumeSaved(coins, start, env)
    case Some(doc) =>
      assert t == loop + [WriteData(FinalDataFile, doc)];
      assert t[..|t| - 1] == loop;
    case None =>
      assert t == loop + [];
  }

  /** A run writes no checkpoint when the listing fails, and otherwise checkpoints
      the indices from `startIndex` to the stopping index in order; in particular a
      resumed run never writes the index it resumed after, or any before it. */
  lemma RunCheckpoints(pages: nat -> Answers, checkpoint: Option<nat>, env: Environment)
    ensures var p := Paginate<Entries<Coin>>(pages, 1, MaxPages);
      p.listing.ListingFailed? ==> Checkpoints(RunTrace(pages, checkpoint, env)) == []
    ensures var p := Paginate<Entries<Coin>>(pages, 1, MaxPages);
      p.listing.Listed? ==>
        Checkpoints(RunTrace(pages, checkpoint, env)) == Span(StartIndex(checkpoint), Stop(p.listing.coins, StartIndex(checkpoint)))
    ensures var cs := Checkpoints(RunTrace(pages, checkpoint, env));
      checkpoint.Some? ==> forall k :: 0 <= k < |cs| ==> checkpoint.value < cs[k]
  {
    var p := Paginate<Entries<Coin>>(pages, 1, MaxPages);
    ListingEventsOnly<Entries<Coin>>(pages, 1, MaxPages);
    if p.listing.Listed? {
      var start := StartIndex(checkpoint);
      ResumeTraceCheckpoints(p.listing.coins, start, env);
      AfterListing(p.trace, ResumeTrace(p.listing.coins, start, env), InLoopDataFile);
    } else {
      NoCheckpoints(p.trace);
    }
  }

  /** The document written to the final data file: the one the resume loop returns,
      when the listing was fetched and the loop went past the last coin. */
  function SavedDocument(pages: nat -> Answers, checkpoint: Option<nat>, env: Environment): Option<Entries<Coin>> {
    var p := Paginate<Entries<Coin>>(pages, 1, MaxPages);
    if p.listing.ListingFailed? then None else ResumeSaved(p.listing.coins, StartIndex(checkpoint), env)
  }

  /** When the run saves a document, that write is its last event and every write
      before it goes to the in-loop data file. */
  lemma FinalWriteLast(pages: nat -> Answers, checkpoint: Option<nat>, env: Environment, doc: Entries<Coin>)
    requires SavedDocument(pages, checkpoint, env) == Some(doc)
    ensures var t := RunTrace(pages, checkpoint, env);
      && t != []
      && t[|t| - 1] == WriteData(FinalDataFile, doc)
      && WritesOnlyTo(t[..|t| - 1], InLoopDataFile)
  {
    var p := Paginate<Entries<Coin>>(pages, 1, MaxPages);
    ListingEventsOnly<Entries<Coin>>(pages, 1, MaxPages);
    ResumeTraceWrites(p.listing.coins, StartIndex(checkpoint), env);
    LastAfterListing(p.trace, ResumeTrace(p.listing.coins, StartIndex(checkpoint), env), WriteData(FinalDataFile, doc));
  }

  /** When the run saves no document, every data write it makes goes to the in-loop
      data file: the final data file is never written. */
  lemma NoFinalWrite(pages: nat -> Answers, checkpoint: Option<nat>, env: Environment)
    requires SavedDocument(pages, checkpoint, env).None?
    ensures WritesOnlyTo(RunTrace(pages, checkpoint, env), InLoopDataFile)
  {
    var p := Paginate<Entries<Coin>>(pages, 1, MaxPages);
    ListingEventsOnly<Entries<Coin>>(pages, 1, MaxPages);
    var t := RunTrace(pages, checkpoint, env);
    if p.listing.Listed? {
      ResumeTraceWrites(p.listing.coins, StartIndex(checkpoint), env);
      AfterListing(p.trace, ResumeTrace(p.listing.coins, StartIndex(checkpoint), env), InLoopDataFile);
    } else {
      forall k | 0 <= k < |t| ensures !t[k].WriteData? {
        assert ListingEvent(t[k]);
      }
    }
  }

  /** An empty first page: the listing is empty, the loop does nothing, and an empty
      document is written to the final data file, whatever the checkpoint says. */
  lemma EmptyFirstPage(pages: nat -> Answers, checkpoint: Option<nat>, env: Environment)
    requires pages(1)(0) == Ok(Arr([]))
    ensures RunTrace(pages, checkpoint, env) == [FetchPage(1), WriteData(FinalDataFile, [])]
  {
    LeadingRateLimitsAt(pages(1), Ceiling(DefaultRetries), 0);
    var start := StartIndex(checkpoint);
    StopAt([], start, start);
  }

  /** Five answers of 429 for the first page: the request and the five waits, after
      which the run ends without writing anything. */
  lemma ListingExhausted(pages: nat -> Answers, checkpoint: Option<nat>, env: Environment)
    requires forall k :: 0 <= k < DefaultRetries ==> pages(1)(k) == RateLimited
    ensures RunTrace(pages, checkpoint, env) ==
      [FetchPage(1), Backoff(2000), Backoff(8000), Backoff(32000), Backoff(128000), Backoff(512000)]
  {
    LeadingRateLimitsAt(pages(1), Ceiling(DefaultRetries), Ceiling(DefaultRetries));
    var waits := [2000, 8000, 32000, 128000, 512000];
    assert Waits(InitialDelay, ListingBackoff, 5) == waits;
    BackoffEventsAre<Entries<Coin>>(waits);
  }
}
