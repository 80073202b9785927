/** The search/pagination state machine of the repositories screen, stated on
    values. `ViewModel` implements it with a class whose methods update fields
    in place and proves each method equal to the function here; `Session`
    drives it with sequences of user and network events. */
module SearchMachine {

  datatype Option<+T> = None | Some(value: T)

  /** Sort key understood by the repository-search service. */
  datatype SortOption = Stars | Forks | Updated

  datatype OrderOption = Ascending | Descending

  /** The shared filter settings read by every search. */
  datatype Filters = Filters(sorting: Option<SortOption>, order: OrderOption)

  /** Settings after a reset of the filter service: no sort key, descending
      order. The filter service is not part of this model, so these
      defaults are an assumption. */
  const DefaultFilters: Filters := Filters(None, Descending)

  /** What an empty query text is replaced with before it is sent. */
  const DefaultQuery: string := "language:swift"

  /** One call to the search service: the arguments it is issued with, and the
      `newQuery` flag that the completion closure captures. */
  datatype Request = Request(
    query: string,
    sorting: Option<SortOption>,
    order: OrderOption,
    page: int,
    newQuery: bool)

  /** How the search service answers a request. The model does not tell one
      failure from another, because the view model does not. */
  datatype Outcome<R> = Success(repositories: seq<R>) | Failure

  /** The fields of the view model. `searchEnded` counts the "search ended"
      events emitted so far. */
  datatype State<R> = State(
    searchQuery: string,
    lastSearchQuery: Option<string>,
    repositories: seq<R>,
    page: int,
    fetching: bool,
    searchEnded: nat)

  /** The view model's fields just after allocation, before its initial search. */
  function Fresh<R>(): (s: State<R>)
    ensures !s.fetching && s.lastSearchQuery == None && s.repositories == []
    ensures s.page == 1 && s.searchEnded == 0 && s.searchQuery == ""
  {
    State("", None, [], 1, false, 0)
  }

  /** The query actually sent: the text itself, or the default expression when
      the text is empty. It is never empty. */
  function Normalize(q: string): (r: string)
    ensures r != ""
    ensures q != "" ==> r == q
    ensures q == "" ==> r == DefaultQuery
  {
    if q == "" then DefaultQuery else q
  }

  /** A query is new when no query was committed yet or the committed one differs. */
  predicate IsNewQuery(last: Option<string>, query: string)
  {
    last == None || last.value != query
  }

  /** `search()`: a no-op while a request is outstanding; otherwise it commits
      the normalised query, raises the guard and issues one request with the
      current filters and page. */
  function Search<R>(s: State<R>, f: Filters): (r: (State<R>, Option<Request>))
    // single-flight guard: nothing is issued and nothing changes
    ensures s.fetching ==> r.0 == s && r.1 == None
    ensures !s.fetching ==> r.1.Some? && r.0.fetching
    // the request's arguments
    ensures !s.fetching ==>
      r.1.value.query == Normalize(s.searchQuery) &&
      r.1.value.sorting == f.sorting && r.1.value.order == f.order &&
      r.1.value.page == s.page
    // the request is new iff no query was committed or a different one was
    ensures !s.fetching ==>
      (r.1.value.newQuery <==>
        s.lastSearchQuery == None || s.lastSearchQuery != Some(Normalize(s.searchQuery)))
    // the normalised query is the committed one afterwards
    ensures !s.fetching ==> r.0.lastSearchQuery == Some(Normalize(s.searchQuery))
    // neither the results, the page, the text nor the event count change
    ensures r.0.repositories == s.repositories && r.0.page == s.page
    ensures r.0.searchQuery == s.searchQuery && r.0.searchEnded == s.searchEnded
  {
    if s.fetching then
      (s, None)
    else
      var query := Normalize(s.searchQuery);
      var newQuery := IsNewQuery(s.lastSearchQuery, query);
      var last := if newQuery then Some(query) else s.lastSearchQuery;
      (s.(lastSearchQuery := last, fetching := true),
       Some(Request(query, f.sorting, f.order, s.page, newQuery)))
  }

  /** The completion closure of a request: on success the results are replaced
      (new query) or extended (continuation) and one "search ended" event is
      emitted; on failure the results and the event count stay as they were.
      The guard is lowered either way. */
  function Complete<R>(s: State<R>, req: Request, outcome: Outcome<R>): (r: State<R>)
    ensures !r.fetching
    ensures outcome.Success? && req.newQuery ==> r.repositories == outcome.repositories
    ensures outcome.Success? && !req.newQuery ==>
      r.repositories == s.repositories + outcome.repositories &&
      |r.repositories| == |s.repositories| + |outcome.repositories| &&
      r.repositories[..|s.repositories|] == s.repositories &&
      r.repositories[|s.repositories|..] == outcome.repositories
    ensures outcome.Success? ==> r.searchEnded == s.searchEnded + 1
    ensures outcome.Failure? ==> r.repositories == s.repositories && r.searchEnded == s.searchEnded
    ensures r.searchQuery == s.searchQuery && r.lastSearchQuery == s.lastSearchQuery
    ensures r.page == s.page
  {
    match outcome
    case Success(page) =>
      var repositories := if req.newQuery then page else s.repositories + page;
      s.(repositories := repositories, searchEnded := s.searchEnded + 1, fetching := false)
    case Failure =>
      s.(repositories := s.repositories + [], fetching := false)
  }

  /** Concatenation of result pages, in the order they arrived. */
  function Flatten<R>(pages: seq<seq<R>>): seq<R>
  {
    if pages == [] then [] else pages[0] + Flatten(pages[1..])
  }

  /** Searching and then receiving each of `pages` successfully, one after
      another, with the query text and filters left as they are. */
  function Paginate<R>(s: State<R>, f: Filters, pages: seq<seq<R>>): (r: State<R>)
    requires !s.fetching
    ensures !r.fetching
    decreases |pages|
  {
    if pages == [] then s
    else
      var (issued, req) := Search(s, f);
      Paginate(Complete(issued, req.value, Success(pages[0])), f, pages[1..])
  }

  /** Pagination over one query: the first page replaces the results when the
      query is new, every later page is appended in arrival order, one
      "search ended" event fires per page, and the page number never moves. */
  lemma {:induction false} PaginateAccumulates<R>(s: State<R>, f: Filters, pages: seq<seq<R>>)
    requires !s.fetching
    ensures var r := Paginate(s, f, pages);
      r.repositories ==
        (if pages != [] && IsNewQuery(s.lastSearchQuery, Normalize(s.searchQuery))
         then [] else s.repositories) + Flatten(pages) &&
      r.searchEnded == s.searchEnded + |pages| &&
      r.page == s.page && r.searchQuery == s.searchQuery &&
      (pages != [] ==> r.lastSearchQuery == Some(Normalize(s.searchQuery)))
    decreases |pages|
  {
    if pages != [] {
      var (issued, req) := Search(s, f);
      var next := Complete(issued, req.value, Success(pages[0]));
      // after the first page the query is committed, so the rest are continuations
      assert !IsNewQuery(next.lastSearchQuery, Normalize(next.searchQuery));
      PaginateAccumulates(next, f, pages[1..]);
      assert pages == [pages[0]] + pages[1..];
      if IsNewQuery(s.lastSearchQuery, Normalize(s.searchQuery)) {
        assert next.repositories == pages[0];
      } else {
        assert next.repositories == s.repositories + pages[0];
      }
    }
  }

  /** After a successful search, searching again with the same text is a
      continuation: its results are appended to the ones already shown. */
  lemma {:induction false} SameTextContinues<R>(s: State<R>, f: Filters, first: seq<R>, second: seq<R>)
    requires !s.fetching
    ensures var p := Paginate(s, f, [first, second]);
      p.repositories ==
        (if IsNewQuery(s.lastSearchQuery, Normalize(s.searchQuery)) then [] else s.repositories)
        + first + second
  {
    PaginateAccumulates(s, f, [first, second]);
    assert Flatten([first, second]) == first + second by {
      assert [first, second][1..] == [second];
      assert Flatten([second]) == second + Flatten([]);
    }
  }
}
