/** Post records as the view layer sees them, and the conversion from the
    raw (title, description) rows of the backing store. */
module Posts {

  /** One row of the backing store: (title, description). */
  type Row = (string, string)

  /** An immutable post as shown by a list cell. */
  datatype PostViewModel = PostViewModel(title: string, description: string)

  /** The mapping applied to every row of a page before it is delivered. */
  function ToPost(row: Row): PostViewModel
  {
    PostViewModel(row.0, row.1)
  }

  /** Maps a sequence of rows to posts, one post per row, order kept. */
  function ToPosts(rows: seq<Row>): (ps: seq<PostViewModel>)
    ensures |ps| == |rows|
    ensures forall i :: 0 <= i < |rows| ==> ps[i].title == rows[i].0 && ps[i].description == rows[i].1
  {
    seq(|rows|, i requires 0 <= i < |rows| => ToPost(rows[i]))
  }

  /** Mapping commutes with slicing: the posts of a slice of rows are the
      same slice of the posts of all rows. */
  lemma ToPostsSlice(rows: seq<Row>, lo: int, hi: int)
    requires 0 <= lo <= hi <= |rows|
    ensures ToPosts(rows[lo..hi]) == ToPosts(rows)[lo..hi]
  {
    var a, b := ToPosts(rows[lo..hi]), ToPosts(rows)[lo..hi];
    assert |a| == |b|;
    forall i | 0 <= i < |a|
      ensures a[i] == b[i]
    {
      assert a[i] == PostViewModel(rows[lo + i].0, rows[lo + i].1);
    }
  }
}
