/** The cursor-driven pager over a fixed in-memory database
    (`ChannelModelController` in the playground). Every call serves the
    slice [pageCount * pageSize, min((pageCount + 1) * pageSize, count)) and
    moves the cursor forward unless that slice reaches the end; on the last
    page the cursor stays put, so later calls serve the final page again. */
module PostPager {
  import opened Posts
  import opened Sequences

  /** Controller state. `pageSize` is 2 in the playground; any positive
      page size is admitted here. */
  datatype ChannelModelController = ChannelModelController(
    mockDatabase: seq<Row>,
    pageCount: nat,
    pageSize: nat,
    isFullyFetched: bool)

  /** What one call hands to its completion, plus the controller state
      the call leaves behind. */
  datatype PageResult = PageResult(
    page: seq<PostViewModel>,
    isLastPage: bool,
    next: ChannelModelController)

  /** Index of the first row the next call will serve. */
  function Start(c: ChannelModelController): nat
  {
    c.pageCount * c.pageSize
  }

  /** All rows of the database, as posts. */
  function AllPosts(c: ChannelModelController): seq<PostViewModel>
  {
    ToPosts(c.mockDatabase)
  }

  /** The cursor invariant: the next page starts inside the database (or
      exactly at its end, which only an empty database reaches), and a
      controller that reports itself fully fetched sits on the last page. */
  predicate Valid(c: ChannelModelController)
  {
    && c.pageSize > 0
    && Start(c) <= |c.mockDatabase|
    && (c.isFullyFetched ==> Start(c) + c.pageSize >= |c.mockDatabase|)
  }

  function Min(a: int, b: int): int
  {
    if a <= b then a else b
  }

  /** Proof helper: moving the cursor one page forward moves the start by
      one page (distributivity, stated for the solver). */
  lemma StartStep(pageCount: nat, pageSize: nat)
    ensures (pageCount + 1) * pageSize == pageCount * pageSize + pageSize
  {
  }

  /** A freshly created controller: cursor on page 0, nothing fetched. */
  function NewController(database: seq<Row>, pageSize: nat): (c: ChannelModelController)
    requires pageSize > 0
    ensures Valid(c)
    ensures Start(c) == 0 && !c.isFullyFetched
    ensures c.mockDatabase == database && c.pageSize == pageSize
  {
    ChannelModelController(database, 0, pageSize, false)
  }

  /** One call of `getNextPostPage`: the page handed to the completion,
      whether it is the last one, and the controller state afterwards. */
  function GetNextPostPage(c: ChannelModelController): (r: PageResult)
    requires Valid(c)
    ensures Valid(r.next)
    ensures r.next.mockDatabase == c.mockDatabase && r.next.pageSize == c.pageSize
    // the page is the run of records starting at the cursor, in order
    ensures Start(c) + |r.page| <= |c.mockDatabase|
    ensures r.page == AllPosts(c)[Start(c) .. Start(c) + |r.page|]
    // at most one page of records; a page that is not the last is full
    ensures |r.page| <= c.pageSize
    ensures !r.isLastPage ==> |r.page| == c.pageSize
    // a page is empty only when the cursor already sits at the end (an empty database)
    ensures |r.page| == 0 <==> Start(c) == |c.mockDatabase|
    // the page is the last exactly when it reaches the end of the database
    ensures r.isLastPage <==> Start(c) + |r.page| == |c.mockDatabase|
    ensures r.next.isFullyFetched == r.isLastPage
    // the cursor moves one page forward past a full page, and sticks on the last one
    ensures !r.isLastPage ==> Start(r.next) == Start(c) + c.pageSize
    ensures r.isLastPage ==> r.next.pageCount == c.pageCount
    // once fully fetched, a call changes nothing
    ensures c.isFullyFetched ==> r.isLastPage && r.next == c
  {
    var endIndex := (c.pageCount + 1) * c.pageSize;
    var isLastPage := endIndex >= |c.mockDatabase|;
    StartStep(c.pageCount, c.pageSize);
    var newResults := c.mockDatabase[Start(c) .. Min(endIndex, |c.mockDatabase|)];
    ToPostsSlice(c.mockDatabase, Start(c), Min(endIndex, |c.mockDatabase|));
    var pageCount := if !isLastPage then c.pageCount + 1 else c.pageCount;
    PageResult(ToPosts(newResults), isLastPage,
               c.(pageCount := pageCount, isFullyFetched := isLastPage))
  }

  /** The controller state after `k` successive calls. */
  function Calls(c: ChannelModelController, k: nat): (r: ChannelModelController)
    requires Valid(c)
    ensures Valid(r)
    ensures r.mockDatabase == c.mockDatabase && r.pageSize == c.pageSize
    decreases k
  {
    if k == 0 then c else Calls(GetNextPostPage(c).next, k - 1)
  }

  /** The pages served by successive calls, up to and including the first
      last page. */
  function Drain(c: ChannelModelController): (pages: seq<seq<PostViewModel>>)
    requires Valid(c)
    ensures |pages| >= 1
    ensures forall i :: 0 <= i < |pages| - 1 ==> |pages[i]| == c.pageSize
    ensures 0 < |pages[|pages| - 1]| <= c.pageSize || Start(c) == |c.mockDatabase|
    decreases |c.mockDatabase| - Start(c)
  {
    var r := GetNextPostPage(c);
    if r.isLastPage then [r.page] else [r.page] + Drain(r.next)
  }

  /** Proof helper: past a page that is not the last, `Drain` is that page
      followed by the pages drained from the next state. */
  lemma DrainUnfold(c: ChannelModelController)
    requires Valid(c) && !GetNextPostPage(c).isLastPage
    ensures Drain(c) == [GetNextPostPage(c).page] + Drain(GetNextPostPage(c).next)
    ensures Flatten(Drain(c)) == GetNextPostPage(c).page + Flatten(Drain(GetNextPostPage(c).next))
  {
    FlattenCons(GetNextPostPage(c).page, Drain(GetNextPostPage(c).next));
  }

  /** A fully fetched controller is a fixed point: any number of further
      calls leaves it as it is. */
  lemma {:induction false} FullyFetchedStays(c: ChannelModelController, k: nat)
    requires Valid(c) && c.isFullyFetched
    ensures Calls(c, k) == c
    decreases k
  {
    if k > 0 {
      FullyFetchedStays(GetNextPostPage(c).next, k - 1);
    }
  }

  /** Once a call has served the last page, every later call serves that
      same page again, still flagged as last, and leaves the same state. */
  lemma {:induction false} LastPageRepeats(c: ChannelModelController, k: nat)
    requires Valid(c) && GetNextPostPage(c).isLastPage
    ensures GetNextPostPage(Calls(c, k)) == GetNextPostPage(c)
  {
    if k > 0 {
      var r := GetNextPostPage(c);
      FullyFetchedStays(r.next, k - 1);
      assert Calls(c, k) == r.next;
    }
  }

  /** The pages of `Drain` are exactly the pages that successive calls
      return, and none of them but the final one is flagged as last. */
  lemma {:induction false} DrainIsCallSequence(c: ChannelModelController, i: nat)
    requires Valid(c) && i < |Drain(c)|
    ensures Drain(c)[i] == GetNextPostPage(Calls(c, i)).page
    ensures GetNextPostPage(Calls(c, i)).isLastPage <==> i == |Drain(c)| - 1
    decreases i
  {
    var r := GetNextPostPage(c);
    if i > 0 {
      assert !r.isLastPage;
      var d' := Drain(r.next);
      assert Drain(c) == [r.page] + d';
      DrainIsCallSequence(r.next, i - 1);
      assert Calls(c, i) == Calls(r.next, i - 1);
    }
  }

  /** Concatenating the pages served from a cursor up to and including the
      first last page yields every remaining record exactly once, in
      database order. */
  lemma {:induction false} DrainDeliversRest(c: ChannelModelController)
    requires Valid(c)
    ensures Flatten(Drain(c)) == AllPosts(c)[Start(c) ..]
    decreases |c.mockDatabase| - Start(c)
  {
    var r := GetNextPostPage(c);
    var all := AllPosts(c);
    var s := Start(c);
    if r.isLastPage {
      assert Drain(c) == [r.page];
      FlattenCons(r.page, []);
      assert r.page == all[s ..];
    } else {
      var rest := Drain(r.next);
      var s' := Start(r.next);
      DrainUnfold(c);
      assert AllPosts(r.next) == all;
      DrainDeliversRest(r.next);
      assert r.page == all[s .. s'];
      SliceSplit(all, s, s');
    }
  }

  /** From a fresh controller, the pages up to the first last page are the
      whole database, in order, each record once. */
  lemma DrainFromStartDeliversAll(database: seq<Row>, pageSize: nat)
    requires pageSize > 0
    ensures Flatten(Drain(NewController(database, pageSize))) == ToPosts(database)
  {
    DrainDeliversRest(NewController(database, pageSize));
  }
}
