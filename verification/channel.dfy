/** The channel view model (`ChannelViewModel` in the playground): an
    append-only list of posts, a loading flag, and the controller it asks
    for pages. Loading is two explicit transitions: `LoadMorePosts` (the
    load start, which calls the controller at once) and `CompleteLoad` (the
    main queue later running the completion that call scheduled). There is
    no in-flight guard: every load start issues a request of its own. */
module Channel {
  import opened Posts
  import opened Sequences
  import opened PostPager

  /** A completion scheduled by one page request: the posts it will append
      and the last-page flag it is handed (and ignores). */
  datatype Completion = Completion(posts: seq<PostViewModel>, isLastPage: bool)

  /** View-model state. `scheduled` holds the completions not yet run, in
      the order they were scheduled; `notified` records, for every call of
      the update callback so far, whether `showLoading` held at that moment
      (the callback starts or stops the activity indicator on it). */
  datatype ChannelViewModel = ChannelViewModel(
    title: string,
    posts: seq<PostViewModel>,
    isLoadingMorePosts: bool,
    modelController: ChannelModelController,
    scheduled: seq<Completion>,
    notified: seq<bool>)

  /** The invariant of every reachable view model: its controller keeps
      the cursor invariant, and a raised loading flag always has a
      completion waiting that will clear it. */
  predicate WellFormed(vm: ChannelViewModel)
  {
    && PostPager.Valid(vm.modelController)
    && (vm.isLoadingMorePosts ==> |vm.scheduled| > 0)
  }

  /** A new view model bound to its controller: not loading, nothing
      scheduled, nothing notified yet. */
  function NewChannel(title: string, posts: seq<PostViewModel>, controller: ChannelModelController): (vm: ChannelViewModel)
    requires PostPager.Valid(controller)
    ensures WellFormed(vm) && !vm.isLoadingMorePosts && !ShowLoading(vm)
    ensures vm.title == title && vm.posts == posts && vm.scheduled == []
    // the view model asks the controller it was given, and has not notified yet
    ensures vm.modelController == controller && vm.notified == []
  {
    ChannelViewModel(title, posts, false, controller, [], [])
  }

  /** Whether the loading indicator is shown. */
  function ShowLoading(vm: ChannelViewModel): bool
  {
    vm.isLoadingMorePosts && !vm.modelController.isFullyFetched
  }

  /** Load start: raise the loading flag, notify, and only then request the
      next page, whose completion is scheduled behind those already pending.
      The notification therefore reads `isFullyFetched` as the previous call
      left it. */
  function LoadMorePosts(vm: ChannelViewModel): (r: ChannelViewModel)
    requires WellFormed(vm)
    ensures WellFormed(r)
    ensures r.isLoadingMorePosts
    ensures r.title == vm.title && r.posts == vm.posts
    // exactly one further request, whatever was already in flight
    ensures r.modelController == Calls(vm.modelController, 1)
    ensures |r.scheduled| == |vm.scheduled| + 1 && vm.scheduled <= r.scheduled
    ensures r.scheduled[|vm.scheduled|].posts == GetNextPostPage(vm.modelController).page
    // one notification, which shows the indicator unless an earlier call
    // already served the last page, even when this request is for the last page
    ensures |r.notified| == |vm.notified| + 1 && vm.notified <= r.notified
    ensures r.notified[|vm.notified|] <==> !vm.modelController.isFullyFetched
    // `showLoading` read after the call holds exactly when the requested page is not the last
    ensures ShowLoading(r) <==> !GetNextPostPage(vm.modelController).isLastPage
  {
    var raised := vm.(isLoadingMorePosts := true);
    var notified := vm.notified + [ShowLoading(raised)];
    var result := GetNextPostPage(vm.modelController);
    raised.(notified := notified,
            modelController := result.next,
            scheduled := vm.scheduled + [Completion(result.page, result.isLastPage)])
  }

  /** Completion: the oldest scheduled completion runs, clears the loading
      flag, appends its page to the posts and notifies, with the indicator
      hidden. */
  function CompleteLoad(vm: ChannelViewModel): (r: ChannelViewModel)
    requires WellFormed(vm) && |vm.scheduled| > 0
    ensures WellFormed(r)
    ensures !r.isLoadingMorePosts && !ShowLoading(r)
    // the old posts are kept as a prefix and the page follows them
    ensures vm.posts <= r.posts
    ensures r.posts[|vm.posts| ..] == vm.scheduled[0].posts
    ensures r.scheduled == vm.scheduled[1 ..]
    ensures r.title == vm.title && r.modelController == vm.modelController
    ensures r.notified == vm.notified + [false]
  {
    var cleared := vm.(isLoadingMorePosts := false,
                       posts := vm.posts + vm.scheduled[0].posts,
                       scheduled := vm.scheduled[1 ..]);
    cleared.(notified := vm.notified + [ShowLoading(cleared)])
  }

  /** Selecting a post starts a load when it is at or past the last loaded
      post; the index is not validated. */
  function SelectedPost(vm: ChannelViewModel, index: int): (r: ChannelViewModel)
    requires WellFormed(vm)
    ensures WellFormed(r)
    ensures r.title == vm.title && r.posts == vm.posts
    // a request is issued exactly when the index reaches the end of the list
    ensures |r.scheduled| == |vm.scheduled| + 1 <==> index >= |vm.posts| - 1
    ensures index < |vm.posts| - 1 ==> r == vm
    ensures index >= |vm.posts| - 1 ==> r.isLoadingMorePosts
    // past the threshold a load starts: one notification, then one controller
    // call whose page and last-page flag are scheduled behind the pending ones
    ensures index >= |vm.posts| - 1 ==>
      && r.notified == vm.notified + [!vm.modelController.isFullyFetched]
      && r.modelController == Calls(vm.modelController, 1)
      && r.scheduled == vm.scheduled + [Completion(GetNextPostPage(vm.modelController).page,
                                                   GetNextPostPage(vm.modelController).isLastPage)]
  {
    if index >= |vm.posts| - 1 then LoadMorePosts(vm) else vm
  }

  /** What can happen to a view model: the user selects a post, a load is
      started directly (as the view controller does when it appears), or
      the main queue runs the oldest scheduled completion. */
  datatype Event = Select(index: int) | LoadMore | RunCompletion

  /** One event. Running a completion when none is scheduled does nothing:
      the main queue has nothing to run. */
  function Step(vm: ChannelViewModel, e: Event): (r: ChannelViewModel)
    requires WellFormed(vm)
    ensures WellFormed(r)
    ensures vm.notified <= r.notified
    // once fully fetched, no event moves the controller or shows the indicator
    ensures vm.modelController.isFullyFetched ==>
      && r.modelController == vm.modelController
      && forall i :: |vm.notified| <= i < |r.notified| ==> !r.notified[i]
  {
    match e
    case Select(index) => SelectedPost(vm, index)
    case LoadMore => LoadMorePosts(vm)
    case RunCompletion => if |vm.scheduled| > 0 then CompleteLoad(vm) else vm
  }

  /** The view model after a sequence of events. Along any run the title is
      fixed, posts are only appended to, and once the controller is fully
      fetched it stays so and the loading indicator never shows again. */
  function Run(vm: ChannelViewModel, events: seq<Event>): (r: ChannelViewModel)
    requires WellFormed(vm)
    ensures WellFormed(r)
    ensures r.title == vm.title
    ensures vm.posts <= r.posts
    ensures vm.modelController.isFullyFetched ==> r.modelController == vm.modelController
    ensures vm.modelController.isFullyFetched ==> !ShowLoading(r)
    // notifications are only appended; after full fetch every one hides the indicator
    ensures vm.notified <= r.notified
    ensures vm.modelController.isFullyFetched ==>
      forall i :: |vm.notified| <= i < |r.notified| ==> !r.notified[i]
    decreases |events|
  {
    if |events| == 0 then vm else Run(Step(vm, events[0]), events[1 ..])
  }

  /** One load that completes before anything else happens. */
  function LoadCycle(vm: ChannelViewModel): (r: ChannelViewModel)
    requires WellFormed(vm) && vm.scheduled == []
    ensures WellFormed(r) && r.scheduled == [] && !ShowLoading(r)
    ensures r.posts == vm.posts + GetNextPostPage(vm.modelController).page
    ensures r.modelController == GetNextPostPage(vm.modelController).next
    // the list grows unless the cursor already sits at the end of the database
    ensures |r.posts| > |vm.posts| <==> Start(vm.modelController) < |vm.modelController.mockDatabase|
  {
    CompleteLoad(LoadMorePosts(vm))
  }

  /** `k` loads, each completing before the next starts. */
  function LoadCycles(vm: ChannelViewModel, k: nat): (r: ChannelViewModel)
    requires WellFormed(vm) && vm.scheduled == []
    ensures WellFormed(r) && r.scheduled == []
    ensures r.title == vm.title && vm.posts <= r.posts
    decreases k
  {
    if k == 0 then vm else LoadCycles(LoadCycle(vm), k - 1)
  }

  /** Proof helper: `k` loads are one load followed by `k - 1` more. */
  lemma LoadCyclesUnfold(vm: ChannelViewModel, k: nat)
    requires WellFormed(vm) && vm.scheduled == [] && k > 0
    ensures LoadCycles(vm, k) == LoadCycles(LoadCycle(vm), k - 1)
  {
  }

  /** After `k` loads, each completing before the next, the controller has
      answered exactly `k` calls. */
  lemma {:induction false} LoadCyclesAdvanceController(vm: ChannelViewModel, k: nat)
    requires WellFormed(vm) && vm.scheduled == []
    ensures LoadCycles(vm, k).modelController == Calls(vm.modelController, k)
    decreases k
  {
    if k > 0 {
      LoadCyclesAdvanceController(LoadCycle(vm), k - 1);
    }
  }

  /** Loading one page at a time until the controller has served its last
      page appends exactly the pages `Drain` lists, in order, and leaves the
      controller fully fetched. */
  lemma {:induction false} SequentialLoadsAppendDrain(vm: ChannelViewModel)
    requires WellFormed(vm) && vm.scheduled == []
    ensures LoadCycles(vm, |Drain(vm.modelController)|).posts
         == vm.posts + Flatten(Drain(vm.modelController))
    ensures LoadCycles(vm, |Drain(vm.modelController)|).modelController.isFullyFetched
    decreases |Drain(vm.modelController)|
  {
    var c := vm.modelController;
    var p := GetNextPostPage(c);
    var next := LoadCycle(vm);
    var d := Drain(c);
    if p.isLastPage {
      assert d == [p.page];
      LoadCyclesUnfold(vm, 1);
      FlattenCons(p.page, []);
    } else {
      var rest := Drain(p.next);
      DrainUnfold(c);
      assert LoadCycles(vm, |d|) == LoadCycles(next, |rest|) by {
        LoadCyclesUnfold(vm, |rest| + 1);
      }
      SequentialLoadsAppendDrain(next);
      AppendAssoc(vm.posts, p.page, Flatten(rest));
    }
  }

  /** Hence loading one page at a time from a fresh controller shows the
      whole database, each record once and in order. */
  lemma SequentialLoadsShowAll(title: string, database: seq<Row>, pageSize: nat)
    requires pageSize > 0
    ensures var vm := NewChannel(title, [], NewController(database, pageSize));
      var r := LoadCycles(vm, |Drain(vm.modelController)|);
      r.posts == ToPosts(database) && r.modelController.isFullyFetched && !ShowLoading(r)
  {
    var vm := NewChannel(title, [], NewController(database, pageSize));
    SequentialLoadsAppendDrain(vm);
    DrainFromStartDeliversAll(database, pageSize);
    assert [] + Flatten(Drain(vm.modelController)) == Flatten(Drain(vm.modelController));
  }

  /** Two load starts before either completes issue two page requests; the
      first completion alone already clears the loading flag although the
      second request is still pending. */
  lemma OverlappingLoads(vm: ChannelViewModel)
    requires WellFormed(vm) && vm.scheduled == []
    ensures var twice := LoadMorePosts(LoadMorePosts(vm));
      && twice.modelController == Calls(vm.modelController, 2)
      && |twice.scheduled| == 2
      && !CompleteLoad(twice).isLoadingMorePosts
      && |CompleteLoad(twice).scheduled| == 1
  {
    assert Calls(vm.modelController, 2) == Calls(Calls(vm.modelController, 1), 1);
  }
}
