/** The view model together with the search service and the screen that drive
    it: a session is a state of the view model, the shared filter settings and
    the requests the service has not answered yet. Events are the user's
    actions and the service's answers; their order is arbitrary. */
module Session {
  import opened SearchMachine

  datatype Event<R> =
    | Edit(text: string)                     // the search field's text changes
    | SearchTapped                           // search button or end of editing
    | ClearFiltersTapped                     // clear-filters button
    | FiltersChosen(filters: Filters)        // the settings screen changes the filters
    | Respond(index: nat, outcome: Outcome<R>) // the service answers inFlight[index]

  /** One moment of a session: the view model's fields, the shared filter
      settings, and the requests the service has not answered yet. */
  datatype World<R> = World(vm: State<R>, filters: Filters, inFlight: seq<Request>)

  /** `search()` with the session's filters; an issued request joins the
      outstanding ones. */
  function Issue<R>(s: World<R>): (r: World<R>)
    ensures r.filters == s.filters
    ensures |r.inFlight| == |s.inFlight| + (if s.vm.fetching then 0 else 1)
    ensures r.inFlight[..|s.inFlight|] == s.inFlight
    ensures r.vm == Search(s.vm, s.filters).0
    ensures !s.vm.fetching ==>
      r.inFlight == s.inFlight + [Request(Normalize(s.vm.searchQuery), s.filters.sorting, s.filters.order,
                                          s.vm.page, IsNewQuery(s.vm.lastSearchQuery, Normalize(s.vm.searchQuery)))]
  {
    var (vm, req) := Search(s.vm, s.filters);
    s.(vm := vm, inFlight := s.inFlight + (if req.Some? then [req.value] else []))
  }

  /** One event: an edit changes only the text; a filter change only the
      filters; a search or a clear-filters tap issues as `search()` does, the
      latter under the default filters; an answer to an outstanding request
      runs that request's closure and retires it, and an answer to no request
      changes nothing. */
  function Step<R>(s: World<R>, e: Event<R>): (r: World<R>)
    ensures e.Edit? ==>
      r.vm == s.vm.(searchQuery := e.text) && r.filters == s.filters && r.inFlight == s.inFlight
    ensures e.FiltersChosen? ==>
      r.vm == s.vm && r.filters == e.filters && r.inFlight == s.inFlight
    ensures e.SearchTapped? ==> r.filters == s.filters && r.vm == Search(s.vm, s.filters).0
    ensures e.ClearFiltersTapped? ==> r.filters == DefaultFilters && r.vm == Search(s.vm, DefaultFilters).0
    ensures (e.SearchTapped? || e.ClearFiltersTapped?) ==>
      |r.inFlight| == |s.inFlight| + (if s.vm.fetching then 0 else 1) &&
      r.inFlight == s.inFlight + (if s.vm.fetching then [] else [Search(s.vm, r.filters).1.value])
    ensures e.Respond? && e.index < |s.inFlight| ==>
      r.vm == Complete(s.vm, s.inFlight[e.index], e.outcome) && r.filters == s.filters &&
      |r.inFlight| + 1 == |s.inFlight| &&
      multiset(r.inFlight) + multiset{s.inFlight[e.index]} == multiset(s.inFlight)
    ensures e.Respond? && e.index >= |s.inFlight| ==> r == s
  {
    match e
    case Edit(text) => s.(vm := s.vm.(searchQuery := text))
    case SearchTapped => Issue(s)
    case ClearFiltersTapped => Issue(s.(filters := DefaultFilters))
    case FiltersChosen(f) => s.(filters := f)
    case Respond(i, outcome) =>
      if i < |s.inFlight| then
        assert s.inFlight == s.inFlight[..i] + [s.inFlight[i]] + s.inFlight[i + 1..];
        s.(vm := Complete(s.vm, s.inFlight[i], outcome),
           inFlight := s.inFlight[..i] + s.inFlight[i + 1..])
      else
        s  // no request of that index: no closure runs
  }

  function Run<R>(s: World<R>, events: seq<Event<R>>): World<R>
    decreases |events|
  {
    if events == [] then s else Run(Step(s, events[0]), events[1..])
  }

  lemma RunCons<R>(s: World<R>, e: Event<R>, rest: seq<Event<R>>)
    ensures Run(s, [e] + rest) == Run(Step(s, e), rest)
  {
    assert ([e] + rest)[1..] == rest;
  }

  lemma RunSingle<R>(s: World<R>, e: Event<R>)
    ensures Run(s, [e]) == Step(s, e)
  {
    RunCons(s, e, []);
    assert [e] + [] == [e];
  }

  /** Creating the view model, which searches at once. */
  function Start<R>(f: Filters): (r: World<R>)
    ensures r.inFlight == [Request(DefaultQuery, f.sorting, f.order, 1, true)]
    ensures r.vm.fetching && r.vm.repositories == [] && r.vm.lastSearchQuery == Some(DefaultQuery)
  {
    Issue(World(Fresh(), f, []))
  }

  /** At most one request is outstanding; the guard is raised exactly while
      one is; and the outstanding request is for the committed query and the
      current page. */
  ghost predicate SingleFlight<R>(s: World<R>)
  {
    |s.inFlight| <= 1 &&
    (s.vm.fetching <==> |s.inFlight| == 1) &&
    (|s.inFlight| == 1 ==>
      s.vm.lastSearchQuery == Some(s.inFlight[0].query) && s.inFlight[0].page == s.vm.page)
  }

  lemma StepKeepsSingleFlight<R>(s: World<R>, e: Event<R>)
    requires SingleFlight(s)
    ensures SingleFlight(Step(s, e))
  {
  }

  lemma {:induction false} RunKeepsSingleFlight<R>(s: World<R>, events: seq<Event<R>>)
    requires SingleFlight(s)
    ensures SingleFlight(Run(s, events))
    decreases |events|
  {
    if events != [] {
      StepKeepsSingleFlight(s, events[0]);
      RunKeepsSingleFlight(Step(s, events[0]), events[1..]);
    }
  }

  /** Whatever the user does and in whatever order the service answers, at
      most one request is ever outstanding, and an answer always belongs to the
      query that is committed when it arrives. */
  lemma AtMostOneOutstanding<R>(f: Filters, events: seq<Event<R>>)
    ensures var s := Run(Start(f), events);
      |s.inFlight| <= 1 &&
      (s.vm.fetching <==> |s.inFlight| == 1) &&
      (|s.inFlight| == 1 ==> s.vm.lastSearchQuery == Some(s.inFlight[0].query))
  {
    RunKeepsSingleFlight(Start<R>(f), events);
  }

  /** The page number is never reset nor advanced, whatever happens. */
  lemma {:induction false} PageNeverChanges<R>(s: World<R>, events: seq<Event<R>>)
    ensures Run(s, events).vm.page == s.vm.page
    decreases |events|
  {
    if events != [] {
      PageNeverChanges(Step(s, events[0]), events[1..]);
    }
  }

  /** How many events of `events`, applied from `s`, are successful answers
      to an outstanding request. */
  function Successes<R>(s: World<R>, events: seq<Event<R>>): nat
    decreases |events|
  {
    if events == [] then 0
    else
      var e := events[0];
      (if e.Respond? && e.outcome.Success? && e.index < |s.inFlight| then 1 else 0)
      + Successes(Step(s, e), events[1..])
  }

  /** One "search ended" event is emitted per successful answer and none
      otherwise: not for failures, searches, edits or filter changes. */
  lemma {:induction false} EventsCountSuccesses<R>(s: World<R>, events: seq<Event<R>>)
    ensures Run(s, events).vm.searchEnded == s.vm.searchEnded + Successes(s, events)
    decreases |events|
  {
    if events != [] {
      EventsCountSuccesses(Step(s, events[0]), events[1..]);
    }
  }

  /** Every request issued from the start asks for page 1. */
  lemma AlwaysFirstPage<R>(f: Filters, events: seq<Event<R>>)
    ensures var s := Run(Start(f), events);
      s.vm.page == 1 && forall i :: 0 <= i < |s.inFlight| ==> s.inFlight[i].page == 1
  {
    PageNeverChanges(Start<R>(f), events);
    RunKeepsSingleFlight(Start<R>(f), events);
  }

  /** Clearing the filters without changing the text re-issues the committed
      query as a continuation at the same page: the answer is appended to the
      results already shown, under the default filters. */
  lemma ClearFiltersContinues<R>(s: World<R>, response: seq<R>)
    requires SingleFlight(s) && !s.vm.fetching
    requires s.vm.lastSearchQuery == Some(Normalize(s.vm.searchQuery))
    ensures var c := Step(s, ClearFiltersTapped);
      c.filters == DefaultFilters &&
      c.inFlight == [Request(Normalize(s.vm.searchQuery), None, Descending, s.vm.page, false)]
    ensures var r := Run(s, [ClearFiltersTapped, Respond(0, Success(response))]);
      r.vm.repositories == s.vm.repositories + response && r.vm.page == s.vm.page &&
      r.inFlight == [] && !r.vm.fetching
  {
    var c := Step(s, ClearFiltersTapped);
    RunSingle(c, Respond(0, Success(response)));
    RunCons(s, ClearFiltersTapped, [Respond(0, Success(response))]);
  }

  /** The two example sessions of the screen: the initial search for the
      default query, answered with two repositories, replaces the empty list
      and emits one event; then a search for "rust" answered with one
      repository replaces the list again. */
  lemma ExampleSessions<R>(f: Filters, a: R, b: R, c: R)
    ensures var s1 := Run(Start(f), [Respond(0, Success([a, b]))]);
      s1.vm.repositories == [a, b] && s1.vm.lastSearchQuery == Some(DefaultQuery) &&
      !s1.vm.fetching && s1.vm.searchEnded == 1 && s1.inFlight == [] &&
      Run(s1, [Edit("rust"), SearchTapped, Respond(0, Success([c]))]).vm.repositories == [c]
  {
    var s0 := Start<R>(f);
    RunSingle(s0, Respond(0, Success([a, b])));
    var s1 := Step(s0, Respond(0, Success([a, b])));
    var e1 := Step(s1, Edit("rust"));
    var e2 := Step(e1, SearchTapped);
    RunSingle(e2, Respond(0, Success([c])));
    RunCons(e1, SearchTapped, [Respond(0, Success([c]))]);
    RunCons(s1, Edit("rust"), [SearchTapped, Respond(0, Success([c]))]);
  }
}
