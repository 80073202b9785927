/** The view model of the repositories screen as a class whose methods update
    its fields in place, each method proved equal to its counterpart in
    `SearchMachine`. The asynchronous call to the search service is split in
    two: `Search` returns the request it issues (with the `newQuery` flag the
    completion closure captures), and `Complete` runs the closure's body when
    the service answers that request. */
module ViewModel {
  import opened SearchMachine

  /** The process-wide filter settings read by every search. */
  class FilterService {
    var sorting: Option<SortOption>
    var order: OrderOption

    constructor (sorting: Option<SortOption>, order: OrderOption)
      ensures Current() == Filters(sorting, order)
    {
      this.sorting := sorting;
      this.order := order;
    }

    function Current(): Filters
      reads this
    {
      Filters(sorting, order)
    }

    /** Restores the default settings. */
    method Reset()
      modifies this
      ensures Current() == DefaultFilters
    {
      sorting := None;
      order := Descending;
    }
  }

  class RepositoriesViewModel<R> {
    /** The text bound to the search field. */
    var searchQuery: string
    var lastSearchQuery: Option<string>
    var repositories: seq<R>
    var page: int
    /** The single-flight guard. */
    var fetching: bool
    /** How many "search ended" events have been emitted. */
    var searchEnded: nat
    /** The shared filter service. */
    const filterService: FilterService

    /** The fields as a `SearchMachine.State` value. */
    function Snapshot(): State<R>
      reads this
    {
      State(searchQuery, lastSearchQuery, repositories, page, fetching, searchEnded)
    }

    /** The fields' initial values; the initial search is issued by `Create`. */
    constructor (filterService: FilterService)
      ensures Snapshot() == Fresh() && this.filterService == filterService
    {
      searchQuery := "";
      lastSearchQuery := None;
      repositories := [];
      page := 1;
      fetching := false;
      searchEnded := 0;
      this.filterService := filterService;
    }

    /** `search()`: returns the request it issued, or `None` when the guard
        turned the call into a no-op. */
    method Search() returns (req: Option<Request>)
      modifies this
      ensures (Snapshot(), req) == SearchMachine.Search(old(Snapshot()), filterService.Current())
      ensures old(fetching) ==> req == None && Snapshot() == old(Snapshot())
      ensures !old(fetching) ==> req.Some? && fetching && req.value.page == page
      ensures repositories == old(repositories) && page == old(page)
    {
      if fetching {
        return None;
      }
      var query := searchQuery;
      if query == "" {
        query := DefaultQuery;
      }
      var newQuery := false;
      if lastSearchQuery == None || lastSearchQuery.value != query {
        lastSearchQuery := Some(query);
        newQuery := true;
      }
      fetching := true;
      req := Some(Request(query, filterService.sorting, filterService.order, page, newQuery));
    }

    /** The completion closure of `req`, run when the service answers it. */
    method Complete(req: Request, outcome: Outcome<R>)
      modifies this
      ensures Snapshot() == SearchMachine.Complete(old(Snapshot()), req, outcome)
      ensures !fetching && page == old(page)
      ensures outcome.Failure? ==> repositories == old(repositories) && searchEnded == old(searchEnded)
    {
      match outcome {
        case Success(response) =>
          if req.newQuery {
            repositories := response;
          } else {
            repositories := repositories + response;
          }
          searchEnded := searchEnded + 1;
        case Failure =>
          repositories := repositories + [];
      }
      fetching := false;
    }

    /** `clearFilters()`: resets the shared filters, then searches again. */
    method ClearFilters() returns (req: Option<Request>)
      modifies this, filterService
      ensures filterService.Current() == DefaultFilters
      ensures (Snapshot(), req) == SearchMachine.Search(old(Snapshot()), DefaultFilters)
    {
      filterService.Reset();
      req := Search();
    }
  }

  /** Creating the view model: its fields take their initial values and it
      issues its first search at once, for the default query. */
  method Create<R>(filterService: FilterService) returns (vm: RepositoriesViewModel<R>, req: Option<Request>)
    ensures fresh(vm) && vm.filterService == filterService
    ensures (vm.Snapshot(), req) == SearchMachine.Search(Fresh(), filterService.Current())
    ensures req.Some? && req.value.query == DefaultQuery && req.value.newQuery && req.value.page == 1
    ensures vm.fetching && vm.lastSearchQuery == Some(DefaultQuery) && vm.repositories == []
  {
    vm := new RepositoriesViewModel(filterService);
    req := vm.Search();
  }
}
