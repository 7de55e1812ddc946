# Pagination state machine of the CollectionViews playground

The playground shows a list of posts that grows page by page while the user
selects posts near its end. Two classes make up the logic behind the list:

- `ChannelModelController` serves pages from an eleven-row mock database.
  Each call of `getNextPostPage` serves the slice
  `[pageCount * pageSize, min((pageCount + 1) * pageSize, count))`. It moves
  the cursor `pageCount` one page forward unless that slice reaches the end
  of the database. It sets `isFullyFetched` to whether the slice did reach
  the end. The page is handed to a completion that runs later on the main
  queue.
- `ChannelViewModel` holds the title, the list of posts and a loading flag.
  `loadMorePosts` raises the flag, notifies the view and only then requests
  a page, so that notification still sees the previous `isFullyFetched`.
  Its completion clears the flag, appends the page and notifies again.
  `selectedPost(index)` starts a load when `index >= posts.count - 1`.
  `showLoading` is `isLoadingMorePosts && !isFullyFetched`.

The Dafny model is functional. Controller and view model are immutable
datatypes, and every operation is a function from state to state:

- `sequences.dfy` (module `Sequences`): the concatenation of a list of
  pages (`Flatten`) and generic sequence identities used by the proofs.
- `posts.dfy` (module `Posts`): `PostViewModel` and the row-to-post mapping.
- `post_pager.dfy` (module `PostPager`): the controller, one call
  (`GetNextPostPage`), `k` successive calls (`Calls`), and the pages served
  up to and including the first last page (`Drain`).
- `channel.dfy` (module `Channel`): the view model. The load start
  (`LoadMorePosts`) and the completion (`CompleteLoad`) are separate
  transitions. Completions that have been scheduled but not yet run wait in
  the FIFO queue `scheduled`. The list `notified` records, for every call
  of the update callback, whether `showLoading` held when the callback ran.
  `Run` applies any sequence of user and queue events.
- `playground.dfy` (module `Playground`): the playground's own set-up, with
  the eleven-row database and page size 2, and concrete scenarios over it.

The model keeps three behaviours of the code that a reader of the class
names might not expect:

- `loadMorePosts` has no in-flight guard. Two load starts before a
  completion issue two page requests, and the first completion already
  clears the loading flag (`Channel.OverlappingLoads`).
- After the last page the cursor stays where it is. Every later call serves
  the final page again, flagged as last; no empty page is ever served
  (`PostPager.LastPageRepeats`). In the view model, a further load after
  exhaustion therefore appends the final post a second time
  (`Playground.WholeChannelThenRepeat`).
- `selectedPost` does not validate its index. On an empty list, index 0
  starts a load, because `0 >= 0 - 1` (`Playground.SelectOnEmptyListLoads`).

The page size is the constant 2 in the playground. The model accepts any
positive page size, and the concrete scenarios use 2.

## Model

| member | source | states |
|---|---|---|
| Posts.ToPosts | CollectionViews.playground/Contents.swift:197 | every row becomes one post with the row's first field as title and second as description, in row order |
| PostPager.NewController | CollectionViews.playground/Contents.swift:175-177 | a fresh controller satisfies the cursor invariant (including for an empty database), starts at row 0 and is not fully fetched |
| PostPager.GetNextPostPage | CollectionViews.playground/Contents.swift:184-194 | the cursor invariant `pageCount * pageSize <= count` is preserved; the page is the run of posts starting at the cursor; it has at most `pageSize` posts and exactly `pageSize` when not last; it is last exactly when it reaches the end of the database; `isFullyFetched` becomes that flag; the cursor moves one page forward past a page that is not last and stays otherwise; a fully fetched controller is left unchanged |
| PostPager.Calls | CollectionViews.playground/Contents.swift:184-194 | any number of successive calls keeps the cursor invariant, the database and the page size |
| PostPager.Drain | CollectionViews.playground/Contents.swift:185-192 | the pages served up to and including the first last page: at least one page, every page but the final one full, and the final one non-empty unless the cursor already sat at the end |
| PostPager.FullyFetchedStays | CollectionViews.playground/Contents.swift:188-194 | a fully fetched controller is a fixed point of any number of further calls |
| PostPager.LastPageRepeats | CollectionViews.playground/Contents.swift:185-194 | once a call has served the last page, every later call serves the same page, flagged as last, and leaves the same state |
| PostPager.DrainIsCallSequence | CollectionViews.playground/Contents.swift:184-194 | the i-th page of `Drain` is the page the i-th successive call returns, and that call is flagged last exactly for the final page |
| PostPager.DrainDeliversRest | CollectionViews.playground/Contents.swift:185-197 | concatenating the pages from any valid cursor up to the first last page yields all remaining posts, once each and in database order |
| PostPager.DrainFromStartDeliversAll | CollectionViews.playground/Contents.swift:175-197 | from a fresh controller those pages concatenate to the whole database as posts |
| Channel.NewChannel | CollectionViews.playground/Contents.swift:133-143 | a new view model has the given title and posts, holds the given controller (the binding the controller makes at line 181), is not loading, has nothing scheduled and has not notified yet; it satisfies the view-model invariant (a raised loading flag always has a completion waiting), and `showLoading` is false |
| Channel.LoadMorePosts | CollectionViews.playground/Contents.swift:151-154 | a load start raises the loading flag, leaves title and posts alone, and issues exactly one further page request whatever is already in flight; it notifies once, before the request, so that notification shows the indicator exactly when no earlier call served the last page; `showLoading` read after the call holds exactly when the requested page is not the last |
| Channel.CompleteLoad | CollectionViews.playground/Contents.swift:154-158 | a completion clears the loading flag (so the indicator is hidden), keeps the old posts as a prefix, appends the oldest scheduled page after them, and notifies once with `showLoading` false; title and controller are unchanged |
| Channel.SelectedPost | CollectionViews.playground/Contents.swift:145-149 | a page request is issued exactly when `index >= posts.count - 1`; otherwise nothing changes; title and posts are unchanged; past the threshold the load start happens: the loading flag is raised, one notification sees the previous `isFullyFetched`, the controller answers one call, and that call's page and last-page flag are scheduled behind the pending completions |
| Channel.Step | CollectionViews.playground/Contents.swift:145-159 | every user or main-queue event keeps the view-model invariant: the controller's cursor invariant, and a completion waiting whenever the loading flag is raised; notifications are only appended; once the controller is fully fetched, no event moves it and every new notification sees `showLoading` false |
| Channel.Run | CollectionViews.playground/Contents.swift:130-159 | along any sequence of events the title is fixed, the posts only grow by appending, and notifications are only appended; once the controller is fully fetched it stays so, every later notification sees `showLoading` false, and `showLoading` is false at the end |
| Channel.LoadCycle | CollectionViews.playground/Contents.swift:151-158 | a load followed by its completion appends the served page, hides the indicator, and grows the list exactly when the cursor had not reached the end of the database |
| Channel.LoadCycles | CollectionViews.playground/Contents.swift:151-158 | loads that each complete before the next keep the title and only append posts |
| Channel.LoadCyclesAdvanceController | CollectionViews.playground/Contents.swift:151-158 | after `k` such loads the controller has answered exactly `k` calls |
| Channel.SequentialLoadsAppendDrain | CollectionViews.playground/Contents.swift:151-197 | loading one page at a time until the last page appends exactly the pages of `Drain` in order and leaves the controller fully fetched |
| Channel.SequentialLoadsShowAll | CollectionViews.playground/Contents.swift:140-197 | from an empty view model and a fresh controller, loading one page at a time shows the whole database in order, each post once, with the indicator hidden |
| Channel.OverlappingLoads | CollectionViews.playground/Contents.swift:151-158 | two load starts before a completion issue two controller calls and schedule two completions; the first completion clears the loading flag while one completion is still scheduled |
| Playground.Controller | CollectionViews.playground/Contents.swift:164-177 | the playground's controller holds eleven rows, satisfies the cursor invariant and is not fully fetched |
| Playground.ViewModel | CollectionViews.playground/Contents.swift:179-182 | the playground's view model starts with no posts and no indicator |
| Playground.FirstPage | CollectionViews.playground/Contents.swift:164-192 | the first call serves "Post Title 1" and "Post Title 2" and is not the last page |
| Playground.SixthAndSeventhPages | CollectionViews.playground/Contents.swift:164-194 | the sixth call serves "Post Title 11" alone as the last page, and a seventh call serves it again as the last page |
| Playground.StartupLoad | CollectionViews.playground/Contents.swift:90 | the load started when the view appears shows the indicator; its completion yields posts 1 and 2; the two notifications see `showLoading` true and then false |
| Playground.LastLoadStillShowsIndicator | CollectionViews.playground/Contents.swift:152-154 | the sixth load requests the last page, yet its load-start notification sees `showLoading` true, because the request is made after the notification; read after the call, `showLoading` is false |
| Playground.SelectOnEmptyListLoads | CollectionViews.playground/Contents.swift:145-149 | selecting index 0 on an empty list issues a page request |
| Playground.WholeChannelThenRepeat | CollectionViews.playground/Contents.swift:145-197 | six sequential loads show all eleven posts in order; a seventh, triggered by selecting the last post, appends "Post Title 11" a second time |

## Left out

- The views, cells, layout constraints, activity indicator and `print` calls (lines 5-123) are presentation only and are not modelled.
- The three-second `DispatchQueue.main.asyncAfter` delay is not modelled as time. A completion is an explicit transition, and completions run in the order they were scheduled, as main-queue blocks with equal delays do.
- The body of `updateCallback` is not modelled. The model only records, for each notification, whether `showLoading` held at that moment (the value on which the callback starts or stops the indicator).
- `updateCallback` is assumed to be set before the first load start. In the code, `updateCallback?(self)` does nothing while the callback is nil, and it stays nil until the view controller's initialiser assigns it (line 62); the model records a notification on every load start and completion. The playground assigns it before its first load (line 90), so no scenario here changes.
- The mutual reference between `ChannelModelController.viewModel` and `ChannelViewModel.modelController`, and the `unowned` capture, are not modelled. The view model holds the controller state by value.
- The playground bootstrapping that presents the view controller (lines 211-213) is not modelled beyond the initial states `Playground.Controller` and `Playground.ViewModel`.
- PostPager.GetNextPostPage: Swift's trap on `Int` overflow in `(pageCount + 1) * pageSize` is not modelled, because it needs a database of about 2^63 rows.
- The `isLastPage` argument handed to the completion is recorded in `Channel.Completion`, but, as in the code, nothing reads it.
- `showLoading` is a plain definition (`Channel.ShowLoading`). What it means is stated by the contracts of `Channel.LoadMorePosts`, `Channel.CompleteLoad` and `Channel.Run`.
