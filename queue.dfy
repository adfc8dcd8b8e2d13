/** The post queue: a list of posts, a cursor into it (`state["index"]`),
    and the state file the cursor is saved to after every pick. */
module PostQueue {
  import opened Wrappers
  import opened Posts

  /** What the state file holds under "index". JSON booleans are listed
      apart because Python counts them as integers. */
  datatype IndexValue = IntValue(n: int) | BoolValue(b: bool) | OtherValue | NoIndex

  /** The state file on disk: absent, or a JSON object. */
  datatype StateFile = NoFile | StateJson(index: IndexValue)

  /** The cursor `reload` leaves in memory after reading the state file: the
      default `{"index": 0}` for a missing file, the stored integer when there
      is one (`True`/`False` count as 1/0), and 0 otherwise. */
  function LoadIndex(f: StateFile): (i: int)
    ensures f.StateJson? && f.index.IntValue? ==> i == f.index.n
    ensures f.StateJson? && f.index.BoolValue? ==> i == if f.index.b then 1 else 0
    ensures f.NoFile? || f.index.OtherValue? || f.index.NoIndex? ==> i == 0
  {
    match f
    case NoFile => 0
    case StateJson(IntValue(n)) => n
    case StateJson(BoolValue(b)) => if b then 1 else 0
    case StateJson(_) => 0
  }

  /** The list `reload` installs: the sheet's posts when there are any,
      otherwise the local file's, otherwise none. */
  function ChoosePosts(sheet: seq<Post>, postsFile: Option<seq<Post>>): (posts: seq<Post>)
    ensures sheet != [] ==> posts == sheet
    ensures sheet == [] && postsFile.Some? ==> posts == postsFile.value
    ensures sheet == [] && postsFile.None? ==> posts == []
  {
    if sheet != [] then sheet
    else if postsFile.Some? then postsFile.value
    else []
  }

  // ---------------------------------------------------------------------
  // Modular arithmetic on the cursor

  /** A multiple of `n` strictly between `-n` and `n` is zero. */
  lemma SmallMultiple(n: int, e: int, x: int)
    requires n > 0 && n * e == x && -n < x < n
    ensures e == 0
  {
  }

  /** Euclidean division has a unique remainder. */
  lemma ModUnique(y: int, n: int, d: int, r: int)
    requires n > 0 && 0 <= r < n && y == n * d + r
    ensures y % n == r
  {
    var d', r' := y / n, y % n;
    assert n * (d - d') == n * d - n * d';
    SmallMultiple(n, d - d', r' - r);
  }

  /** Python's `index % len(posts)`: the position in `[0, n)` congruent to
      the cursor. */
  function Slot(index: int, n: nat): (k: nat)
    requires n > 0
    ensures k < n
  {
    index % n
  }

  /** Slots agree on cursors that differ by a multiple of `n`. */
  lemma SlotShift(a: int, j: int, n: nat)
    requires n > 0
    ensures Slot(Slot(a, n) + j, n) == Slot(a + j, n)
  {
    var s := Slot(a + j, n);
    assert a + j == n * ((a + j) / n) + s;
    assert a == n * (a / n) + a % n;
    ModUnique(a % n + j, n, (a + j) / n - a / n, s);
  }

  /** A cursor already in `[0, n)` is its own slot. */
  lemma SlotSmall(a: int, n: nat)
    requires 0 <= a < n
    ensures Slot(a, n) == a
  {
  }

  // ---------------------------------------------------------------------
  // One call of next_post, and a run of them, on values

  /** What `next_post` returns for `posts` and cursor `index`. */
  function Pick(posts: seq<Post>, index: int): (r: Option<Post>)
    ensures r.None? <==> posts == []
    ensures r.Some? ==> r.value in posts
  {
    if posts == [] then None else Some(posts[Slot(index, |posts|)])
  }

  /** The cursor `next_post` stores: one past the slot it picked. */
  function Advance(posts: seq<Post>, index: int): (r: int)
    ensures posts == [] ==> r == index
    ensures posts != [] ==> 1 <= r <= |posts| && Slot(r - 1, |posts|) == Slot(index, |posts|)
  {
    if posts == [] then index
    else
      var s := Slot(index, |posts|);
      SlotSmall(s, |posts|);
      s + 1
  }

  /** The posts returned by `k` consecutive calls starting at cursor `index`. */
  function Run(posts: seq<Post>, index: int, k: nat): (r: seq<Post>)
    requires posts != []
    ensures |r| == k
    decreases k
  {
    if k == 0 then [] else [Pick(posts, index).value] + Run(posts, Advance(posts, index), k - 1)
  }

  /** The cursor after `k` consecutive calls starting at cursor `index`. */
  function AdvanceN(posts: seq<Post>, index: int, k: nat): int
    decreases k
  {
    if k == 0 then index else AdvanceN(posts, Advance(posts, index), k - 1)
  }

  /** Call `j + 1` of a run returns the post at slot `index + j`: the queue
      walks the list cyclically from the cursor. */
  lemma {:induction false} RunAt(posts: seq<Post>, index: int, k: nat, j: nat)
    requires posts != [] && j < k
    ensures Run(posts, index, k)[j] == posts[Slot(index + j, |posts|)]
    decreases j
  {
    if j > 0 {
      var n := |posts|;
      RunAt(posts, Advance(posts, index), k - 1, j - 1);
      SlotShift(index, j, n);
    }
  }

  /** From a fresh cursor, one call per post returns every post exactly once,
      in list order. */
  lemma RunFullCycle(posts: seq<Post>)
    requires posts != []
    ensures Run(posts, 0, |posts|) == posts
  {
    forall j | 0 <= j < |posts|
      ensures Run(posts, 0, |posts|)[j] == posts[j]
    {
      FullCycleAt(posts, j);
    }
  }

  lemma FullCycleAt(posts: seq<Post>, j: nat)
    requires j < |posts|
    ensures Run(posts, 0, |posts|)[j] == posts[j]
  {
    RunAt(posts, 0, |posts|, j);
    SlotSmall(j, |posts|);
  }

  /** The slot `j` places after slot `s` wraps around at most once. */
  lemma SlotWrap(s: nat, j: nat, n: nat)
    requires s < n && j < n
    ensures Slot(s + j, n) == if s + j < n then s + j else s + j - n
  {
  }

  lemma RotatedAt(posts: seq<Post>, s: nat, j: nat)
    requires s < |posts| && j < |posts|
    ensures (posts[s..] + posts[..s])[j] == posts[if s + j < |posts| then s + j else s + j - |posts|]
  {
  }

  /** Call `j + 1` of a full cycle from slot `s` returns the post the
      rotation of the list to `s` holds at `j`. */
  lemma RotationAt(posts: seq<Post>, index: int, j: nat)
    requires posts != [] && j < |posts|
    ensures var s := Slot(index, |posts|);
            Run(posts, index, |posts|)[j] == (posts[s..] + posts[..s])[j]
  {
    var n := |posts|;
    var s := Slot(index, n);
    RunAt(posts, index, n, j);
    SlotShift(index, j, n);
    SlotWrap(s, j, n);
    RotatedAt(posts, s, j);
  }

  /** A rotation holds the same posts as the list. */
  lemma RotationMultiset(posts: seq<Post>, s: nat)
    requires s <= |posts|
    ensures multiset(posts[s..] + posts[..s]) == multiset(posts)
  {
    assert posts == posts[..s] + posts[s..];
  }

  /** From any cursor, one call per post returns the list rotated to the
      cursor's slot, so again every post exactly once. */
  lemma RunRotation(posts: seq<Post>, index: int)
    requires posts != []
    ensures var s := Slot(index, |posts|);
            Run(posts, index, |posts|) == posts[s..] + posts[..s]
    ensures multiset(Run(posts, index, |posts|)) == multiset(posts)
  {
    var n := |posts|;
    var s := Slot(index, n);
    var rot := posts[s..] + posts[..s];
    var r := Run(posts, index, n);
    assert r == rot by {
      forall j | 0 <= j < n
        ensures r[j] == rot[j]
      {
        RotationAt(posts, index, j);
      }
    }
    RotationMultiset(posts, s);
  }

  /** The cursor after `k` calls has moved `k` places, modulo `n`; after at
      least one call it lies in `[1, n]`. */
  lemma {:induction false} AdvanceNAt(posts: seq<Post>, index: int, k: nat)
    requires posts != []
    ensures k >= 1 ==> 1 <= AdvanceN(posts, index, k) <= |posts|
    ensures Slot(AdvanceN(posts, index, k), |posts|) == Slot(index + k, |posts|)
    decreases k
  {
    if k > 0 {
      var n := |posts|;
      var a := Advance(posts, index);
      AdvanceNAt(posts, a, k - 1);
      SlotShift(index, k, n);
      assert a + (k - 1) == Slot(index, n) + k;
    }
  }

  /** Restarting after `a` calls from the saved cursor continues the same
      sequence: the run splits at any point where the cursor is persisted
      and read back. */
  lemma {:induction false} RunResumes(posts: seq<Post>, index: int, a: nat, b: nat)
    requires posts != []
    ensures Run(posts, index, a + b)
         == Run(posts, index, a) + Run(posts, LoadIndex(StateJson(IntValue(AdvanceN(posts, index, a)))), b)
    decreases a
  {
    if a > 0 {
      RunResumes(posts, Advance(posts, index), a - 1, b);
    }
  }

  // ---------------------------------------------------------------------
  // The Queue object

  class Queue {
    /** `random_order`: stored, never consulted by `next_post`. */
    const random: bool
    /** `self.posts` */
    var posts: seq<Post>
    /** `self.state["index"]` */
    var index: int
    /** The state file on disk, written by `save` and read by `reload`. */
    var saved: StateFile

    /** The field initialisation of `__init__`, before its `reload`. */
    constructor (randomOrder: bool, disk: StateFile)
      ensures random == randomOrder && posts == [] && index == 0 && saved == disk
    {
      random := randomOrder;
      posts := [];
      index := 0;
      saved := disk;
    }

    /** `reload`: refetch the sheet (raising if gspread raises), fall back to
        the posts file, then reread the cursor from the state file. */
    method Reload(source: SheetSource, postsFile: Option<seq<Post>>) returns (r: Result<(), FetchError>)
      modifies this
      ensures r.Failure? <==> source.Unavailable?
      ensures saved == old(saved)
      ensures r.Failure? ==> posts == old(posts) && index == old(index)
      ensures r.Success? ==> posts == ChoosePosts(SheetPosts(source), postsFile)
      ensures r.Success? ==> index == LoadIndex(saved)
    {
      var fetched := FetchPostsFromSheet(source);
      if fetched.Failure? {
        return Failure(fetched.error);
      }
      if fetched.value != [] {
        posts := fetched.value;
      } else if postsFile.Some? {
        posts := postsFile.value;
      } else {
        posts := [];
      }
      index := LoadIndex(saved);
      r := Success(());
    }

    /** `save`: write the state to the state file. */
    method Save()
      modifies this`saved
      ensures saved == StateJson(IntValue(index))
    {
      saved := StateJson(IntValue(index));
    }

    /** `next_post`: the post at the cursor's slot, with the cursor moved one
        past it and saved; nothing at all on an empty list. */
    method NextPost() returns (p: Option<Post>)
      modifies this`index, this`saved
      ensures posts == old(posts)
      ensures p == Pick(posts, old(index))
      ensures index == Advance(posts, old(index))
      ensures posts == [] ==> saved == old(saved)
      ensures posts != [] ==> saved == StateJson(IntValue(index))
    {
      if |posts| == 0 {
        return None;
      }
      var idx := index % |posts|;
      var post := posts[idx];
      index := idx + 1;
      Save();
      p := Some(post);
    }
  }

  /** `Queue(posts_file, state_file, random_order)`: initialise, then
      reload; the construction raises when the sheet fetch does. */
  method CreateQueue(randomOrder: bool, disk: StateFile, source: SheetSource, postsFile: Option<seq<Post>>)
    returns (r: Result<Queue, FetchError>)
    ensures r.Failure? <==> source.Unavailable?
    ensures r.Success? ==> fresh(r.value) && r.value.random == randomOrder && r.value.saved == disk
    ensures r.Success? ==> r.value.posts == ChoosePosts(SheetPosts(source), postsFile)
    ensures r.Success? ==> r.value.index == LoadIndex(disk)
  {
    var q := new Queue(randomOrder, disk);
    var reloaded := q.Reload(source, postsFile);
    if reloaded.Failure? {
      return Failure(reloaded.error);
    }
    return Success(q);
  }
}
