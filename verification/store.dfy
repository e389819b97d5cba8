/**
 The wall store as a value: the ordered posts and the next-identity counter,
 with `add`, `update` and `clear` as pure state transitions.
 */
module Store {
  import opened Wrappers
  import opened DataModel

  /** The store's state: posts in insertion order and the counter for the next id. */
  datatype Wall = Wall(posts: seq<Post>, nextId: int)

  /** A freshly started store: no posts, counter at 1. */
  const Initial: Wall := Wall([], 1)

  /** Some stored post carries `id`. */
  ghost predicate HasId(posts: seq<Post>, id: int)
  {
    exists i :: 0 <= i < |posts| && posts[i].id == id
  }

  /** `i` is the first position whose post carries `id`. */
  ghost predicate IsFirstMatch(posts: seq<Post>, id: int, i: int)
  {
    && 0 <= i < |posts|
    && posts[i].id == id
    && forall j :: 0 <= j < i ==> posts[j].id != id
  }

  /** Linear search, front to back, for the first post carrying `id`. */
  function FirstIndex(posts: seq<Post>, id: int): (r: Option<nat>)
    ensures r.Some? ==> IsFirstMatch(posts, id, r.value)
    ensures r.None? <==> !HasId(posts, id)
    decreases |posts|
  {
    if |posts| == 0 then None
    else if posts[0].id == id then Some(0)
    else match FirstIndex(posts[1..], id)
      case None => None
      case Some(i) => Some(i + 1)
  }

  /** The first match of an id is unique. */
  lemma FirstMatchUnique(posts: seq<Post>, id: int, i: int, k: int)
    requires IsFirstMatch(posts, id, i) && IsFirstMatch(posts, id, k)
    ensures i == k
  {
  }

  /**
   `add`: the submitted post, with its id replaced by the counter, is appended;
   the counter moves on by one. Every earlier post keeps its position.
   */
  function Add(w: Wall, post: Post): (r: (Wall, Post))
    ensures r.1.id == w.nextId && SameContent(r.1, post)
    ensures r.0.posts == w.posts + [r.1]
    ensures r.0.nextId == w.nextId + 1
  {
    var added := post.(id := w.nextId);
    (Wall(w.posts + [added], w.nextId + 1), added)
  }

  /**
   `update`: when some stored post carries `p.id`, the first such post is
   replaced by `p` in place and the answer is true; otherwise nothing changes
   and the answer is false. The counter is never touched.
   */
  function Update(w: Wall, p: Post): (r: (Wall, bool))
    ensures r.1 <==> HasId(w.posts, p.id)
    ensures r.0.nextId == w.nextId && |r.0.posts| == |w.posts|
    ensures r.1 ==> forall i :: 0 <= i < |w.posts| ==>
      r.0.posts[i] == (if IsFirstMatch(w.posts, p.id, i) then p else w.posts[i])
    ensures !r.1 ==> r.0 == w
  {
    match FirstIndex(w.posts, p.id)
    case None => (w, false)
    case Some(i) => (w.(posts := w.posts[i := p]), true)
  }

  /** `clear`: every post is dropped and the counter starts again from 1. */
  function Clear(w: Wall): (r: Wall)
    ensures r.posts == [] && r.nextId == 1
  {
    Initial
  }

  /**
   The loop of `update` as written: walk the posts with their indices and
   replace the first one whose id matches, returning at once; report false
   after the walk when none matched.
   */
  method ReplaceFirstMatch(posts: seq<Post>, updated: Post) returns (result: seq<Post>, replaced: bool)
    ensures replaced <==> HasId(posts, updated.id)
    ensures replaced ==> exists i :: IsFirstMatch(posts, updated.id, i) && result == posts[i := updated]
    ensures !replaced ==> result == posts
  {
    var index := 0;
    while index < |posts|
      invariant 0 <= index <= |posts|
      invariant forall j :: 0 <= j < index ==> posts[j].id != updated.id
    {
      if posts[index].id == updated.id {
        assert IsFirstMatch(posts, updated.id, index);
        return posts[index := updated], true;
      }
      index := index + 1;
    }
    return posts, false;
  }

  /**
   The shape every state reachable by the store's operations has: the posts
   carry ids 1, 2, 3, ... in order and the counter is one past the last.
   */
  ghost predicate Dense(w: Wall)
  {
    && w.nextId == |w.posts| + 1
    && forall i :: 0 <= i < |w.posts| ==> w.posts[i].id == i + 1
  }

  /** In a dense store the ids are positive, strictly increasing, hence distinct, and below the counter. */
  lemma DenseIdsOrdered(w: Wall)
    requires Dense(w)
    ensures forall i :: 0 <= i < |w.posts| ==> 1 <= w.posts[i].id < w.nextId
    ensures forall i, j :: 0 <= i < j < |w.posts| ==> w.posts[i].id < w.posts[j].id
  {
  }

  /** `add` keeps a store dense and the returned id is one past every stored id. */
  lemma AddKeepsDense(w: Wall, post: Post)
    requires Dense(w)
    ensures Dense(Add(w, post).0)
    ensures Add(w, post).1.id == |w.posts| + 1
  {
  }

  /**
   In a dense store `update(p)` succeeds exactly when `p.id` is one of the
   assigned ids 1 .. nextId-1, and then replaces the post at position p.id-1.
   */
  lemma UpdateInDenseStore(w: Wall, p: Post)
    requires Dense(w)
    ensures Update(w, p).1 <==> 1 <= p.id < w.nextId
    ensures Update(w, p).1 ==> Update(w, p).0.posts == w.posts[p.id - 1 := p]
  {
    if 1 <= p.id < w.nextId {
      assert w.posts[p.id - 1].id == p.id;
      assert IsFirstMatch(w.posts, p.id, p.id - 1);
      var r := Update(w, p).0;
      forall i | 0 <= i < |w.posts|
        ensures r.posts[i] == w.posts[p.id - 1 := p][i]
      {
        if IsFirstMatch(w.posts, p.id, i) {
          FirstMatchUnique(w.posts, p.id, i, p.id - 1);
        }
      }
    }
  }

  /**
   `update` never changes the id at any position: the replacement carries the
   very id it was matched on. A dense store therefore stays dense.
   */
  lemma UpdateKeepsIds(w: Wall, p: Post)
    ensures forall i :: 0 <= i < |w.posts| ==> Update(w, p).0.posts[i].id == w.posts[i].id
    ensures Dense(w) ==> Dense(Update(w, p).0)
  {
  }

  /** `clear` yields a dense store, and the next `add` is given id 1. */
  lemma ClearThenAdd(w: Wall, post: Post)
    ensures Dense(Clear(w))
    ensures Add(Clear(w), post).1.id == 1
    ensures Add(Clear(w), post).0.posts == [post.(id := 1)]
  {
  }
}
