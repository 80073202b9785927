# Repository search view model, in Dafny

This project models the search and pagination state machine of the
repositories screen (`RepositoriesViewModel`). The view model holds:
- the search field's text;
- the last committed query;
- the accumulated list of repositories;
- the page number;
- a single-flight guard `fetching`.

`search()` does the following:
- It does nothing while a request is outstanding.
- It replaces an empty text with `language:swift`.
- It commits the query when the query is new.
- It issues one call to the search service with the shared filter settings and the current page.

The completion closure replaces the results when the query was new and appends them otherwise. It then fires a "search ended" event. A failure changes nothing and fires no event. The guard is lowered in both cases. `clearFilters()` resets the shared filters and searches again.

The model has three modules:

- `SearchMachine` (SearchMachine.dfy) states the machine on values. `Search` and `Complete` are functions over a `State`. The lemma `PaginateAccumulates` describes the order in which results accumulate over successive pages.
- `ViewModel` (ViewModel.dfy) has the classes `FilterService` and `RepositoriesViewModel`. Their methods update fields in place, step by step, as the Swift code does. Each method of `RepositoriesViewModel` is proved equal to its `SearchMachine` function; `FilterService.Reset` is tied to the constant `DefaultFilters`. The asynchronous call is split in two. `Search()` returns the request it issued: the query, sort, order and page, plus the `newQuery` flag that the closure captures. `Complete(req, outcome)` runs the closure body. Dafny constructors cannot return values, so the view model's initialiser, which calls `search()`, is modelled as `Create`. `Create` allocates the object and returns the first request.
- `Session` (Session.dfy) runs the view model with the search service and the screen. A session holds the view model's state, the filter settings and the requests not yet answered. Events arrive in any order: text edits, search taps, clear-filters taps, filter changes, and answers to any outstanding request. The session is used to prove the following:
  - At most one request is ever outstanding.
  - An answer always belongs to the query that is committed when it arrives.
  - The page number never changes.
  - The number of "search ended" events equals the number of successful answers.

The page number is kept exactly as the source has it: nothing assigns it, not even when a new query is detected. `PageNeverChanges` and `AlwaysFirstPage` state this. Every request therefore asks for page 1. `ClearFiltersContinues` shows a second consequence. Clearing the filters without editing the text re-issues the committed query as a continuation at the same page. Its answer is then appended to the results already shown.

## Model

| member | source | states |
|---|---|---|
| SearchMachine.Fresh | DesafioModal/Coordinator/RepositoriesViewModel.swift:11-17 | before the first search: empty text, no committed query, no results, page 1, guard down, no events |
| SearchMachine.Normalize | DesafioModal/Coordinator/RepositoriesViewModel.swift:40-42 | the query sent is never empty: the text itself when non-empty, `language:swift` when empty |
| SearchMachine.Search | DesafioModal/Coordinator/RepositoriesViewModel.swift:31-53 | while `fetching` nothing is issued and no field changes; otherwise the guard is raised and the committed query becomes the normalised text; exactly one request is issued with the normalised query, the current filter sort and order and the current page; it is flagged new iff no query was committed or a different one was; results, page and event count are untouched |
| SearchMachine.Complete | DesafioModal/Coordinator/RepositoriesViewModel.swift:54-68 | success on a new query makes the results exactly the response; success on a continuation makes them old ++ response, with the old results as prefix and the response as suffix, and emits exactly one event; failure leaves results and event count unchanged; the guard is down afterwards in both cases; query and page are untouched |
| SearchMachine.PaginateAccumulates | DesafioModal/Coordinator/RepositoriesViewModel.swift:44-61 | repeated search-then-success with the same text gives, in arrival order, the concatenation of all pages; it is prefixed by the old results only if the query was not new; one event per page; page and text unchanged |
| SearchMachine.SameTextContinues | DesafioModal/Coordinator/RepositoriesViewModel.swift:44-59 | after one successful search, searching again with the same text appends the second page to the first |
| ViewModel.FilterService.Reset | DesafioModal/Coordinator/RepositoriesViewModel.swift:81 | the shared filters become the defaults (no sort key, descending) |
| ViewModel.RepositoriesViewModel.constructor | DesafioModal/Coordinator/RepositoriesViewModel.swift:11-27 | the fields take the initial values of `SearchMachine.Fresh`, and the view model keeps the shared filter service |
| ViewModel.RepositoriesViewModel.Search | DesafioModal/Coordinator/RepositoriesViewModel.swift:31-53 | the new fields and the returned request equal `SearchMachine.Search` of the old fields and the current shared filters; while fetching it returns nothing and changes nothing; results and page never change |
| ViewModel.RepositoriesViewModel.Complete | DesafioModal/Coordinator/RepositoriesViewModel.swift:53-69 | the new fields equal `SearchMachine.Complete` of the old ones; the guard is down, the page is unchanged, and a failure leaves results and event count alone |
| ViewModel.RepositoriesViewModel.ClearFilters | DesafioModal/Coordinator/RepositoriesViewModel.swift:80-84 | the shared filters become the defaults; the fields and the request equal `SearchMachine.Search` under the default filters |
| ViewModel.Create | DesafioModal/Coordinator/RepositoriesViewModel.swift:25-29 | a fresh view model whose first request is issued at once, for `language:swift`, page 1, flagged new; the guard is up and the results are empty |
| Session.Issue | DesafioModal/Coordinator/RepositoriesViewModel.swift:51-53 | the view model moves to the state `SearchMachine.Search` gives under the session's filters; when the guard was down exactly one request joins the outstanding ones, carrying the normalised query, the filters' sort and order, the current page and the new-query flag; when it was up none does; earlier requests are kept |
| Session.Step | DesafioModal/View/RepositoriesViewController.swift:121-144 | one event of the screen or the service: `Edit` is the text field bound to the search text and changes only the text; `SearchTapped` is end of editing or the search button and issues as `search()` does: the outstanding requests are kept and, when the guard was down, exactly the request `SearchMachine.Search` issues is added; `ClearFiltersTapped` is the clear-filters button and resets the filters, then issues; `FiltersChosen` stands for the settings screen, which is not part of this model, and changes only the filters; `Respond` is the service running the closure of an outstanding request (the call at RepositoriesViewModel.swift:53), which applies `SearchMachine.Complete` and retires that one request; an answer to no request changes nothing |
| Session.Start | DesafioModal/Coordinator/RepositoriesViewModel.swift:25-29 | right after creation the only outstanding request is `language:swift` with the current filters, page 1, flagged new |
| Session.StepKeepsSingleFlight | DesafioModal/Coordinator/RepositoriesViewModel.swift:31-68 | every event keeps the invariant: at most one request is outstanding, the guard is up exactly while one is, and that one is for the committed query and the current page |
| Session.RunKeepsSingleFlight | DesafioModal/Coordinator/RepositoriesViewModel.swift:31-68 | any sequence of events keeps the same invariant |
| Session.AtMostOneOutstanding | DesafioModal/Coordinator/RepositoriesViewModel.swift:31-68 | from creation on, whatever the events, at most one request is outstanding, `fetching` is true exactly while one is, and an answer belongs to the committed query |
| Session.PageNeverChanges | DesafioModal/Coordinator/RepositoriesViewModel.swift:14 | no sequence of events changes the page number |
| Session.AlwaysFirstPage | DesafioModal/Coordinator/RepositoriesViewModel.swift:14 | from creation on, the page is 1 and every outstanding request asks for page 1 |
| Session.EventsCountSuccesses | DesafioModal/Coordinator/RepositoriesViewModel.swift:61 | over any sequence of events, the number of "search ended" events grows by exactly the number of successful answers to outstanding requests |
| Session.ClearFiltersContinues | DesafioModal/Coordinator/RepositoriesViewModel.swift:80-84 | with an unchanged committed text, clearing filters issues a continuation with the default filters at the same page; its successful answer is appended to the old results |
| Session.ExampleSessions | DesafioModal/Coordinator/RepositoriesViewModel.swift:31-68 | initial search answered with [a, b] gives results [a, b], committed query `language:swift`, one event; then searching "rust" answered with [c] gives [c] |

## Left out

- The user interface (`RepositoriesViewController`): outlets, table data source, styling and gestures. It only forwards to the view model. Text edits, button taps and filter changes appear as `Session` events.
- The reactive plumbing (`BehaviorSubject`, `PublishSubject`, dispose bags). The search text is a plain field. The "search ended" subject is the counter `searchEnded`. The failure path of reading the text subject (:36-38) cannot happen, because the subject never errors, so it is not modelled.
- The network call `GithubService.searchRepositories`. It is replaced by the request returned from `Search` and the outcome passed to `Complete`. Every kind of failure is one `Failure` outcome, as the view model treats them all alike.
- `FilterService`: its source is not part of this model. Its defaults after `reset()` (no sort key, descending order) are an assumption. Its initial values are constructor parameters. The source reads and resets `FilterService.shared` directly (:53, :81). The model reads and resets the view model's `filterService` field instead. The two agree because that field is assigned `FilterService.shared` at :27 and refers to the same object; the model assumes no other filter service is passed in.
- `showDetailsOfRepository` and `showFilterSettings` (:72-78). They only forward a signal and change no state.
- `hasScrollReachedBottom` and `didViewUpdated`. The view model never reads or updates them.
- `[weak self]` lifetimes and real concurrency. Answers are delivered one at a time on one thread. An answer arriving after the view model is gone is not modelled.
- SearchMachine.Search: the query comparison that decides "new query" is equality of character sequences, not Swift's `String` comparison, which treats canonically equivalent texts as equal (a precomposed "é" and "e" followed by a combining accent). For two such texts the model flags the request new and replaces the results, where the source treats it as a continuation and appends. `ViewModel.RepositoriesViewModel.Search` is proved equal to it and has the same limit. Dafny has no Unicode normalisation.
- At-most-once delivery: `Session` assumes the search service runs each request's closure at most once, since `Respond` retires the answered request. The service's source is not part of this model. A service that ran a closure twice would append the page again, emit a second event, and lower the guard while a later request is outstanding. `AtMostOneOutstanding`, `RunKeepsSingleFlight` and `EventsCountSuccesses` rest on this assumption.
- Integer width: `page` is an unbounded `int`. It is never changed, so Swift's 64-bit `Int` cannot overflow here.
