/** The playground's concrete set-up: the eleven-row mock database served
    two rows at a time to the "Testing Channel" view model. */
module Playground {
  import opened Posts
  import opened Sequences
  import opened PostPager
  import opened Channel

  /** The fixed backing store of the model controller. */
  const MockDatabase: seq<Row> := [
    ("Post Title 1", "Description 1"),
    ("Post Title 2", "Description 2"),
    ("Post Title 3", "Description 3"),
    ("Post Title 4", "Description 4"),
    ("Post Title 5", "Description 5"),
    ("Post Title 6", "Description 6"),
    ("Post Title 7", "Description 7"),
    ("Post Title 8", "Description 8"),
    ("Post Title 9", "Description 9"),
    ("Post Title 10", "Description 10"),
    ("Post Title 11", "Description 11")]

  const PageSize: nat := 2

  /** The controller as the playground creates it. */
  function Controller(): (c: ChannelModelController)
    ensures PostPager.Valid(c) && |c.mockDatabase| == 11 && !c.isFullyFetched
  {
    NewController(MockDatabase, PageSize)
  }

  /** The view model as the playground creates it, bound to its controller. */
  function ViewModel(): (vm: ChannelViewModel)
    ensures WellFormed(vm) && vm.posts == [] && !ShowLoading(vm)
  {
    NewChannel("Testing Channel", [], Controller())
  }

  /** The first call serves posts 1 and 2 and is not the last page. */
  lemma FirstPage()
    ensures GetNextPostPage(Controller()).page
         == [PostViewModel("Post Title 1", "Description 1"),
             PostViewModel("Post Title 2", "Description 2")]
    ensures !GetNextPostPage(Controller()).isLastPage
  {
  }

  /** The sixth call serves post 11 alone, flagged as the last page, and a
      seventh call serves post 11 again. */
  lemma SixthAndSeventhPages()
    ensures GetNextPostPage(Calls(Controller(), 5)).page
         == [PostViewModel("Post Title 11", "Description 11")]
    ensures GetNextPostPage(Calls(Controller(), 5)).isLastPage
    ensures GetNextPostPage(Calls(Controller(), 6)).page
         == [PostViewModel("Post Title 11", "Description 11")]
    ensures GetNextPostPage(Calls(Controller(), 6)).isLastPage
  {
  }

  /** When the view appears it starts a load: its notification starts the
      indicator, and the completion's notification, after posts 1 and 2 are
      appended, stops it. */
  lemma StartupLoad()
    ensures ShowLoading(LoadMorePosts(ViewModel()))
    ensures var done := CompleteLoad(LoadMorePosts(ViewModel()));
      && !ShowLoading(done)
      && done.posts == [PostViewModel("Post Title 1", "Description 1"),
                        PostViewModel("Post Title 2", "Description 2")]
      && done.notified == [true, false]
  {
  }

  /** Selecting the only position of an empty list starts a load, because
      0 >= 0 - 1. */
  lemma SelectOnEmptyListLoads()
    ensures |SelectedPost(ViewModel(), 0).scheduled| == 1
  {
  }

  /** Six loads, each completing before the next, show all eleven posts in
      order; a seventh, triggered by selecting the last post, appends post 11
      a second time. */
  lemma WholeChannelThenRepeat()
    ensures |Drain(Controller())| == 6
    ensures LoadCycles(ViewModel(), 6).posts == ToPosts(MockDatabase)
    ensures var again := CompleteLoad(SelectedPost(LoadCycles(ViewModel(), 6), 10));
      && again.posts == ToPosts(MockDatabase) + [PostViewModel("Post Title 11", "Description 11")]
      && !ShowLoading(again)
  {
    var c := Controller();
    var c1 := GetNextPostPage(c).next;
    var c2 := GetNextPostPage(c1).next;
    var c3 := GetNextPostPage(c2).next;
    var c4 := GetNextPostPage(c3).next;
    var c5 := GetNextPostPage(c4).next;
    assert Start(c5) == 10;
    assert GetNextPostPage(c5).isLastPage;
    assert Drain(c4) == [GetNextPostPage(c4).page, GetNextPostPage(c5).page];
    assert |Drain(c)| == 6;
    SequentialLoadsShowAll("Testing Channel", MockDatabase, PageSize);
    var full := LoadCycles(ViewModel(), 6);
    LoadCyclesAdvanceController(ViewModel(), 6);
    SixthAndSeventhPages();
    assert |full.posts| == 11;
    assert SelectedPost(full, 10) == LoadMorePosts(full);
  }

  /** The sixth load requests the last page, yet its load-start notification
      still starts the indicator, because the controller is not fully fetched
      until that request has been made; read after the call, `showLoading`
      is already false. */
  lemma LastLoadStillShowsIndicator()
    ensures var vm := LoadCycles(ViewModel(), 5);
      && GetNextPostPage(vm.modelController).isLastPage
      && LoadMorePosts(vm).notified[|vm.notified|]
      && !ShowLoading(LoadMorePosts(vm))
  {
    var c := Controller();
    var c1 := GetNextPostPage(c).next;
    var c2 := GetNextPostPage(c1).next;
    var c3 := GetNextPostPage(c2).next;
    var c4 := GetNextPostPage(c3).next;
    var c5 := GetNextPostPage(c4).next;
    assert !GetNextPostPage(c4).isLastPage;
    assert Calls(c, 5) == c5;
    LoadCyclesAdvanceController(ViewModel(), 5);
    SixthAndSeventhPages();
  }
}
