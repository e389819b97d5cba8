/**
 The wall store as an object with state, as callers use it: one explicit
 instance in place of the process-wide singleton. Each operation changes the
 instance exactly as the pure transition of the `Store` module says, and
 `GetPosts` hands out a newly allocated array.
 */
module Service {
  import opened DataModel
  import opened Store

  class WallService {
    var posts: seq<Post>
    var nextId: int

    /** The instance's state as a value. */
    function State(): Wall
      reads this
    {
      Wall(posts, nextId)
    }

    /** A new store starts empty with its counter at 1. */
    constructor ()
      ensures State() == Initial
    {
      posts := [];
      nextId := 1;
    }

    /** `add`: assign the counter, advance it, append; return the stored post. */
    method Add(post: Post) returns (added: Post)
      modifies this
      ensures (State(), added) == Store.Add(old(State()), post)
    {
      added := post.(id := nextId);
      nextId := nextId + 1;
      posts := posts + [added];
    }

    /** `update`: replace the first post with a matching id, by the source's loop. */
    method Update(updated: Post) returns (found: bool)
      modifies this
      ensures (State(), found) == Store.Update(old(State()), updated)
    {
      var result;
      result, found := ReplaceFirstMatch(posts, updated);
      if found {
        ghost var i :| IsFirstMatch(posts, updated.id, i) && result == posts[i := updated];
        FirstMatchUnique(posts, updated.id, i, FirstIndex(posts, updated.id).value);
      }
      posts := result;
    }

    /** `clear`: drop every post and restart the counter at 1. */
    method Clear()
      modifies this
      ensures State() == Store.Clear(old(State()))
    {
      posts := [];
      nextId := 1;
    }

    /**
     `getPosts`: a copy of the stored posts in a newly allocated array, so no
     caller can reach the store's own storage through it. The state is not
     modified (there is no `modifies` clause).
     */
    method GetPosts() returns (copy: array<Post>)
      ensures fresh(copy)
      ensures copy[..] == posts
    {
      var current := posts;
      copy := new Post[|current|](i requires 0 <= i < |current| => current[i]);
    }
  }

  /** Two reads in a row return two different arrays holding the same posts. */
  method ReadTwice(service: WallService) returns (first: array<Post>, second: array<Post>)
    ensures first != second
    ensures first[..] == second[..] == service.posts
  {
    first := service.GetPosts();
    second := service.GetPosts();
  }

  /**
   Writing into a returned array does not reach the store: a later read
   still returns the stored posts.
   */
  method WriteIntoCopy(service: WallService, p: Post) returns (copy: array<Post>, reread: array<Post>)
    requires |service.posts| > 0
    ensures copy.Length > 0 && copy[0] == p
    ensures service.posts == old(service.posts)
    ensures reread[..] == service.posts
  {
    copy := service.GetPosts();
    copy[0] := p;
    reread := service.GetPosts();
  }
}
