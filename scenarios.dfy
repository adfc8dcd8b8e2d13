/** Whole-queue behaviours, stated on Queue objects built the way the bot
    builds its module-level `queue`. */
module Scenarios {
  import opened Wrappers
  import opened Posts
  import opened PostQueue

  /** Restarting the process between two calls does not change what the
      second call returns: the cursor saved by `next_post` is the one the
      new `Queue` reads back, over the same sources. */
  method RestartReturnsSamePost(disk: StateFile, source: SheetSource, postsFile: Option<seq<Post>>)
    returns (kept: Option<Post>, restarted: Option<Post>)
    requires !source.Unavailable?
    ensures kept == restarted
  {
    var r := CreateQueue(false, disk, source, postsFile);
    var q := r.value;
    var first := q.NextPost();
    var r' := CreateQueue(false, q.saved, source, postsFile);
    var q' := r'.value;
    kept := q.NextPost();
    restarted := q'.NextPost();
  }

  /** A sheet with rows `text = "x"` and `text = ""` and no state file:
      only the first row becomes a post, and the queue returns it on every
      call, the cursor wrapping modulo 1. */
  method EmptyTextRowSkipped() returns (first: Option<Post>, second: Option<Post>)
    ensures first == second == Some(ToPost(map["text" := "x"]))
  {
    var a: Row := map["text" := "x"];
    var b: Row := map["text" := ""];
    assert NormalizeRows([a, b]) == [ToPost(a)] by {
      assert HasText(a) && !HasText(b);
      assert [a, b][..1] == [a];
      assert [a][..0] == [];
      assert NormalizeRows([a]) == [ToPost(a)];
    }
    var r := CreateQueue(false, NoFile, Records([a, b]), None);
    var q := r.value;
    first := q.NextPost();
    second := q.NextPost();
  }
}
