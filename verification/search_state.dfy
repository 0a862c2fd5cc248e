/** The search and pagination state of the `Home` component as a value, the
    transition each handler makes, the rule by which the two fetch effects
    issue requests, and properties of arbitrary runs of these transitions. */
module SearchState {
  import opened Opt

  /** One hit of the image search: id, display URL and tags. */
  datatype Image = Image(id: int, webformatURL: string, tags: string)

  /** The settled outcome of one search request: the hits of the page, in
      the provider's order, or a failure (network error or a payload
      without a hit list). */
  datatype Response = Hits(hits: seq<Image>) | Failed

  /** The arguments of one `fetchImages` call. */
  datatype Request = Request(pageNumber: int, searchQuery: string, category: string)

  /** The dependency values the effects saw when they last ran. */
  datatype Deps = Deps(searchQuery: string, category: string, page: int)

  datatype State = State(
    images: seq<Image>,
    searchQuery: string,
    category: string,
    loading: bool,
    hasMore: bool,
    page: int,
    committed: Option<Deps>)

  const InitialQuery := "nature"
  const InitialCategory := "nature"

  /** The state of the first render; the effects have not run yet. */
  function Initial(): State {
    State([], InitialQuery, InitialCategory, false, true, 1, None)
  }

  /** Pages are numbered from 1. */
  predicate Valid(s: State) {
    s.page >= 1
  }

  function SearchChanged(s: State, query: string): State {
    s.(searchQuery := query, images := [], page := 1, hasMore := true)
  }

  function CategoryChanged(s: State, newCategory: string): State {
    s.(category := newCategory, images := [], page := 1, hasMore := true)
  }

  /** `fetchMoreData`: consults `hasMore` only, not `loading`. */
  function MoreRequested(s: State): State {
    if s.hasMore then s.(page := s.page + 1) else s
  }

  /** The continuation of `fetchImages` once its request settles. The hits
      are appended whatever criteria are current by then. */
  function Settled(s: State, response: Response): State {
    match response
    case Hits(hits) =>
      s.(images := s.images + hits, hasMore := if |hits| == 0 then false else s.hasMore, loading := false)
    case Failed =>
      s.(loading := false)
  }

  function DepsOf(s: State): Deps {
    Deps(s.searchQuery, s.category, s.page)
  }

  /** The `[searchQuery, category]` effect runs on the first commit and whenever either differs. */
  predicate CriteriaChanged(prev: Option<Deps>, cur: Deps) {
    prev.None? || prev.value.searchQuery != cur.searchQuery || prev.value.category != cur.category
  }

  /** The `[page]` effect runs on the first commit and whenever the page differs. */
  predicate PageChanged(prev: Option<Deps>, cur: Deps) {
    prev.None? || prev.value.page != cur.page
  }

  /** The `fetchImages` calls the two effects make, in declaration order:
      the criteria effect fetches unconditionally, the page effect only
      for a page beyond the first. */
  function EffectRequests(prev: Option<Deps>, cur: Deps): (r: seq<Request>)
    ensures forall i :: 0 <= i < |r| ==> r[i] == Request(cur.page, cur.searchQuery, cur.category)
    ensures r != [] <==> CriteriaChanged(prev, cur) || (PageChanged(prev, cur) && cur.page > 1)
    ensures |r| == (if CriteriaChanged(prev, cur) then 1 else 0)
                  + (if PageChanged(prev, cur) && cur.page > 1 then 1 else 0)
    ensures |r| == 2 <==> CriteriaChanged(prev, cur) && PageChanged(prev, cur) && cur.page > 1
    ensures prev == Some(cur) ==> r == []
  {
    var request := Request(cur.page, cur.searchQuery, cur.category);
    (if CriteriaChanged(prev, cur) then [request] else [])
      + (if PageChanged(prev, cur) && cur.page > 1 then [request] else [])
  }

  /** A commit: the effects run, each `fetchImages` call sets `loading`
      before it awaits, and the dependency values are remembered. */
  function Committed(s: State): State {
    var fetching := EffectRequests(s.committed, DepsOf(s)) != [];
    s.(loading := s.loading || fetching, committed := Some(DepsOf(s)))
  }

  /** What can happen to the component: the two handlers, `fetchMoreData`
      (called by the infinite scroller), a commit that runs the effects,
      and the settling of an outstanding request. */
  datatype Event =
    | SearchChange(query: string)
    | CategoryChange(newCategory: string)
    | MoreData
    | Render
    | Settle(response: Response)

  predicate IsReset(e: Event) {
    e.SearchChange? || e.CategoryChange?
  }

  predicate NoReset(events: seq<Event>) {
    forall i :: 0 <= i < |events| ==> !IsReset(events[i])
  }

  function Step(s: State, e: Event): State {
    match e
    case SearchChange(q) => SearchChanged(s, q)
    case CategoryChange(c) => CategoryChanged(s, c)
    case MoreData => MoreRequested(s)
    case Render => Committed(s)
    case Settle(r) => Settled(s, r)
  }

  /** The requests an event issues: only a commit issues any. */
  function Issued(s: State, e: Event): seq<Request> {
    if e.Render? then EffectRequests(s.committed, DepsOf(s)) else []
  }

  function Run(s: State, events: seq<Event>): State
    decreases |events|
  {
    if events == [] then s else Run(Step(s, events[0]), events[1..])
  }

  /** Every request issued along a run, in order. */
  function Requests(s: State, events: seq<Event>): seq<Request>
    decreases |events|
  {
    if events == [] then [] else Issued(s, events[0]) + Requests(Step(s, events[0]), events[1..])
  }

  /** The hits delivered along a run, concatenated in order of arrival. */
  function ArrivedHits(events: seq<Event>): seq<Image>
    decreases |events|
  {
    if events == [] then []
    else
      var head := if events[0].Settle? && events[0].response.Hits? then events[0].response.hits else [];
      head + ArrivedHits(events[1..])
  }

  function CountMoreData(events: seq<Event>): nat
    decreases |events|
  {
    if events == [] then 0 else (if events[0] == MoreData then 1 else 0) + CountMoreData(events[1..])
  }

  // ---------------------------------------------------------------------
  // One transition at a time

  lemma SearchChangeResets(s: State, q: string)
    ensures var t := Step(s, SearchChange(q));
      t.searchQuery == q && t.images == [] && t.page == 1 && t.hasMore
      && t.category == s.category && t.loading == s.loading && t.committed == s.committed
  {
  }

  lemma CategoryChangeResets(s: State, c: string)
    ensures var t := Step(s, CategoryChange(c));
      t.category == c && t.images == [] && t.page == 1 && t.hasMore
      && t.searchQuery == s.searchQuery && t.loading == s.loading && t.committed == s.committed
  {
  }

  /** `fetchMoreData` advances exactly one page when more are available,
      whether or not a fetch is in flight, and otherwise changes nothing. */
  lemma MoreDataAdvances(s: State)
    ensures Step(s, MoreData) == if s.hasMore then s.(page := s.page + 1) else s
  {
  }

  /** A successful page is appended as it came; an empty one latches
      `hasMore` off. A failure touches nothing but `loading`. */
  lemma SettleEffect(s: State, r: Response)
    ensures var t := Step(s, Settle(r));
      !t.loading && t.page == s.page && t.searchQuery == s.searchQuery && t.category == s.category
      && t.committed == s.committed
      && (r.Failed? ==> t.images == s.images && t.hasMore == s.hasMore)
      && (r.Hits? ==> t.images == s.images + r.hits && |t.images| == |s.images| + |r.hits|)
      && (r.Hits? ==> (t.hasMore <==> s.hasMore && |r.hits| > 0))
  {
  }

  lemma StepKeepsValid(s: State, e: Event)
    requires Valid(s)
    ensures Valid(Step(s, e))
  {
  }

  // ---------------------------------------------------------------------
  // Runs

  lemma {:induction false} RunKeepsValid(s: State, events: seq<Event>)
    requires Valid(s)
    ensures Valid(Run(s, events))
    decreases |events|
  {
    if events != [] {
      StepKeepsValid(s, events[0]);
      RunKeepsValid(Step(s, events[0]), events[1..]);
    }
  }

  lemma {:induction false} RunConcat(s: State, a: seq<Event>, b: seq<Event>)
    ensures Run(s, a + b) == Run(Run(s, a), b)
    decreases |a|
  {
    if a != [] {
      assert (a + b)[0] == a[0];
      assert (a + b)[1..] == a[1..] + b;
      RunConcat(Step(s, a[0]), a[1..], b);
    } else {
      assert a + b == b;
    }
  }

  /** Within one criteria lifetime the result list only grows, by exactly
      the hits that arrive, in arrival order and without deduplication; the
      criteria stay, and the page never goes back. */
  lemma {:induction false} AppendOnly(s: State, events: seq<Event>)
    requires NoReset(events)
    ensures Run(s, events).images == s.images + ArrivedHits(events)
    ensures Run(s, events).searchQuery == s.searchQuery && Run(s, events).category == s.category
    ensures s.page <= Run(s, events).page <= s.page + CountMoreData(events)
    decreases |events|
  {
    if events != [] {
      var t := Step(s, events[0]);
      assert NoReset(events[1..]) by {
        forall i | 0 <= i < |events[1..]| ensures !IsReset(events[1..][i]) {
          assert events[1..][i] == events[i + 1];
        }
      }
      assert !IsReset(events[0]);
      AppendOnly(t, events[1..]);
      var head := if events[0].Settle? && events[0].response.Hits? then events[0].response.hits else [];
      assert t.images == s.images + head;
      assert s.images + head + ArrivedHits(events[1..]) == s.images + (head + ArrivedHits(events[1..]));
    }
  }

  /** Corollary: the old list is a prefix of the new one. */
  lemma OldImagesPrefix(s: State, events: seq<Event>)
    requires NoReset(events)
    ensures s.images <= Run(s, events).images
    ensures |s.images| <= |Run(s, events).images|
  {
    AppendOnly(s, events);
  }

  /** Once `hasMore` is off, nothing but a reset turns it back on or moves the page. */
  lemma {:induction false} ExhaustionLatch(s: State, events: seq<Event>)
    requires !s.hasMore && NoReset(events)
    ensures !Run(s, events).hasMore && Run(s, events).page == s.page
    decreases |events|
  {
    if events != [] {
      assert !IsReset(events[0]);
      assert NoReset(events[1..]) by {
        forall i | 0 <= i < |events[1..]| ensures !IsReset(events[1..][i]) {
          assert events[1..][i] == events[i + 1];
        }
      }
      ExhaustionLatch(Step(s, events[0]), events[1..]);
    }
  }

  /** Once `hasMore` is off and the effects have seen the current state,
      no further request is issued until a reset. */
  lemma {:induction false} ExhaustedIssuesNothing(s: State, events: seq<Event>)
    requires !s.hasMore && s.committed == Some(DepsOf(s)) && NoReset(events)
    ensures Requests(s, events) == []
    decreases |events|
  {
    if events != [] {
      var t := Step(s, events[0]);
      assert !IsReset(events[0]);
      assert NoReset(events[1..]) by {
        forall i | 0 <= i < |events[1..]| ensures !IsReset(events[1..][i]) {
          assert events[1..][i] == events[i + 1];
        }
      }
      assert Issued(s, events[0]) == [];
      assert !t.hasMore && t.committed == Some(DepsOf(t));
      ExhaustedIssuesNothing(t, events[1..]);
    }
  }

  /** After the last reset the list holds exactly the hits that arrived
      since, whatever came before, and the page restarted at 1. */
  lemma ResetClears(s: State, before: seq<Event>, reset: Event, after: seq<Event>)
    requires IsReset(reset) && NoReset(after)
    ensures Run(s, before + [reset] + after).images == ArrivedHits(after)
    ensures 1 <= Run(s, before + [reset] + after).page <= 1 + CountMoreData(after)
  {
    RunConcat(s, before + [reset], after);
    RunConcat(s, before, [reset]);
    var r := Run(s, before + [reset]);
    assert Run(Run(s, before), [reset]) == Step(Run(s, before), reset);
    assert r.images == [] && r.page == 1;
    AppendOnly(r, after);
  }

  // ---------------------------------------------------------------------
  // When the effects fetch

  /** The first commit fetches page 1 of the initial criteria, once. */
  lemma FirstRenderFetches()
    ensures Requests(Initial(), [Render]) == [Request(1, InitialQuery, InitialCategory)]
    ensures Run(Initial(), [Render]).loading
  {
  }

  /** A new query refetches from page 1 with the current category. Setting
      the query it already has clears the list but fetches nothing, since
      neither effect's dependencies changed to a page beyond the first. */
  lemma SearchChangeFetches(s: State, q: string)
    requires s.committed == Some(DepsOf(s))
    ensures Requests(s, [SearchChange(q), Render])
         == if q != s.searchQuery then [Request(1, q, s.category)] else []
  {
    var t := Step(s, SearchChange(q));
    assert [SearchChange(q), Render][1..] == [Render];
    assert Requests(t, [Render]) == Issued(t, Render);
  }

  lemma CategoryChangeFetches(s: State, c: string)
    requires s.committed == Some(DepsOf(s))
    ensures Requests(s, [CategoryChange(c), Render])
         == if c != s.category then [Request(1, s.searchQuery, c)] else []
  {
    var t := Step(s, CategoryChange(c));
    assert [CategoryChange(c), Render][1..] == [Render];
    assert Requests(t, [Render]) == Issued(t, Render);
  }

  /** `fetchMoreData` followed by a commit fetches the next page under the
      current criteria when more are available, even while `loading`. */
  lemma MoreDataFetches(s: State)
    requires Valid(s) && s.committed == Some(DepsOf(s))
    ensures Requests(s, [MoreData, Render])
         == if s.hasMore then [Request(s.page + 1, s.searchQuery, s.category)] else []
  {
    var t := Step(s, MoreData);
    assert [MoreData, Render][1..] == [Render];
    assert Requests(t, [Render]) == Issued(t, Render);
  }

  /** A settled request changes no dependency, so its commit fetches nothing. */
  lemma SettleFetchesNothing(s: State, r: Response)
    requires s.committed == Some(DepsOf(s))
    ensures Requests(s, [Settle(r), Render]) == []
  {
    var t := Step(s, Settle(r));
    assert [Settle(r), Render][1..] == [Render];
    assert Requests(t, [Render]) == Issued(t, Render);
  }

  /** There is no stale-response guard: hits that settle after the query
      changed are shown under the new query. */
  lemma NoStaleGuard(s: State, q: string, late: seq<Image>)
    ensures Run(s, [SearchChange(q), Settle(Hits(late))]).images == late
    ensures Run(s, [SearchChange(q), Settle(Hits(late))]).searchQuery == q
  {
    var t := Step(s, SearchChange(q));
    assert [SearchChange(q), Settle(Hits(late))][1..] == [Settle(Hits(late))];
    assert Run(t, [Settle(Hits(late))]) == Step(t, Settle(Hits(late)));
  }

  /** `loading` is a flag, not a count: two pages requested one after the
      other are both in flight, and when one of them settles `loading` is
      off although the other is still outstanding. */
  lemma LoadingIsNotACount(s: State, r: Response)
    requires Valid(s) && s.hasMore && s.committed == Some(DepsOf(s))
    ensures var twice := [MoreData, Render] + [MoreData, Render];
      Requests(s, twice + [Settle(r)])
        == [Request(s.page + 1, s.searchQuery, s.category), Request(s.page + 2, s.searchQuery, s.category)]
      && Run(s, twice).loading
      && !Run(s, twice + [Settle(r)]).loading
  {
    var more := [MoreData, Render];
    var s2 := Step(Step(s, MoreData), Render);
    PairRun(s, MoreData, Render);
    MoreDataFetches(s);
    var s4 := Step(Step(s2, MoreData), Render);
    PairRun(s2, MoreData, Render);
    MoreDataFetches(s2);
    RequestsConcat(s, more, more);
    RunConcat(s, more, more);
    SingleRun(s4, Settle(r));
    RequestsConcat(s, more + more, [Settle(r)]);
    RunConcat(s, more + more, [Settle(r)]);
  }

  lemma SingleRun(s: State, e: Event)
    ensures Run(s, [e]) == Step(s, e) && Requests(s, [e]) == Issued(s, e)
  {
    assert [e][1..] == [];
  }

  lemma PairRun(s: State, e1: Event, e2: Event)
    ensures Run(s, [e1, e2]) == Step(Step(s, e1), e2)
    ensures Requests(s, [e1, e2]) == Issued(s, e1) + Issued(Step(s, e1), e2)
  {
    assert [e1, e2][1..] == [e2];
    SingleRun(Step(s, e1), e2);
  }

  lemma {:induction false} RequestsConcat(s: State, a: seq<Event>, b: seq<Event>)
    ensures Requests(s, a + b) == Requests(s, a) + Requests(Run(s, a), b)
    decreases |a|
  {
    if a != [] {
      assert (a + b)[0] == a[0];
      assert (a + b)[1..] == a[1..] + b;
      RequestsConcat(Step(s, a[0]), a[1..], b);
    } else {
      assert a + b == b;
    }
  }
}
