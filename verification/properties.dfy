/**
 Properties of sequences of store operations: identity numbering across
 `add` calls, the shape of every reachable state, the add-then-update round
 trip, and the concrete scenarios the store's tests exercise.
 */
module Properties {
  import opened Wrappers
  import opened DataModel
  import opened Store

  /** One call a client can make on the store. */
  datatype Call = AddCall(post: Post) | UpdateCall(post: Post) | ClearCall | GetPostsCall

  /** The state after one call; `getPosts` reads only. */
  function Step(w: Wall, c: Call): Wall
  {
    match c
    case AddCall(p) => Add(w, p).0
    case UpdateCall(p) => Update(w, p).0
    case ClearCall => Clear(w)
    case GetPostsCall => w
  }

  /** The state after a sequence of calls, made in order. */
  function Run(w: Wall, calls: seq<Call>): Wall
    decreases |calls|
  {
    if |calls| == 0 then w else Run(Step(w, calls[0]), calls[1..])
  }

  /** Every call keeps the store dense. */
  lemma StepKeepsDense(w: Wall, c: Call)
    requires Dense(w)
    ensures Dense(Step(w, c))
  {
    match c
    case AddCall(p) => AddKeepsDense(w, p);
    case UpdateCall(p) => UpdateKeepsIds(w, p);
    case ClearCall =>
    case GetPostsCall =>
  }

  /** Any sequence of calls keeps the store dense. */
  lemma {:induction false} RunKeepsDense(w: Wall, calls: seq<Call>)
    requires Dense(w)
    ensures Dense(Run(w, calls))
    decreases |calls|
  {
    if |calls| > 0 {
      StepKeepsDense(w, calls[0]);
      RunKeepsDense(Step(w, calls[0]), calls[1..]);
    }
  }

  /**
   In every state reachable from a new store, the posts carry ids 1, 2, 3, ...
   in order: the ids are positive, distinct, strictly increasing and all
   below the counter.
   */
  lemma ReachableStates(calls: seq<Call>)
    ensures Dense(Run(Initial, calls))
    ensures var w := Run(Initial, calls);
      && (forall i :: 0 <= i < |w.posts| ==> 1 <= w.posts[i].id < w.nextId)
      && (forall i, j :: 0 <= i < j < |w.posts| ==> w.posts[i].id < w.posts[j].id)
  {
    RunKeepsDense(Initial, calls);
    DenseIdsOrdered(Run(Initial, calls));
  }

  /** Add the posts one after another; the final state and each returned post. */
  function AddAll(w: Wall, ps: seq<Post>): (Wall, seq<Post>)
    decreases |ps|
  {
    if |ps| == 0 then (w, [])
    else
      var (w1, added) := Add(w, ps[0]);
      var (w2, rest) := AddAll(w1, ps[1..]);
      (w2, [added] + rest)
  }

  /**
   Consecutive `add` calls hand out consecutive ids from the counter, keep
   each submitted post's content, and append the returned posts in call order.
   */
  lemma {:induction false} AddAllNumbersConsecutively(w: Wall, ps: seq<Post>)
    ensures |AddAll(w, ps).1| == |ps|
    ensures forall i :: 0 <= i < |ps| ==>
      AddAll(w, ps).1[i].id == w.nextId + i && SameContent(AddAll(w, ps).1[i], ps[i])
    ensures AddAll(w, ps).0.posts == w.posts + AddAll(w, ps).1
    ensures AddAll(w, ps).0.nextId == w.nextId + |ps|
    decreases |ps|
  {
    if |ps| > 0 {
      var (w1, added) := Add(w, ps[0]);
      AddAllNumbersConsecutively(w1, ps[1..]);
      var rest := AddAll(w1, ps[1..]).1;
      assert AddAll(w, ps).1 == [added] + rest;
      forall i | 0 <= i < |ps|
        ensures AddAll(w, ps).1[i].id == w.nextId + i && SameContent(AddAll(w, ps).1[i], ps[i])
      {
        if i > 0 {
          assert AddAll(w, ps).1[i] == rest[i - 1];
          assert ps[1..][i - 1] == ps[i];
        }
      }
    }
  }

  /** Two `add` calls in a row return ids n and n + 1. */
  lemma ConsecutiveAdds(w: Wall, p: Post, q: Post)
    ensures Add(Add(w, p).0, q).1.id == Add(w, p).1.id + 1
  {
  }

  /** After `clear`, `add` calls alone hand out exactly the ids 1, 2, 3, ... */
  lemma AddsAfterClearStartAtOne(w: Wall, ps: seq<Post>)
    ensures |AddAll(Clear(w), ps).1| == |ps|
    ensures forall i :: 0 <= i < |ps| ==> AddAll(Clear(w), ps).1[i].id == i + 1
    ensures AddAll(Clear(w), ps).0.posts == AddAll(Clear(w), ps).1
  {
    AddAllNumbersConsecutively(Clear(w), ps);
  }

  /**
   Round trip: editing the text and attachments of a post just returned by
   `add` and submitting it to `update` succeeds, and the stored post becomes
   the edited one, at the end of the list, with nothing else changed.
   */
  lemma AddThenUpdate(w: Wall, p: Post, text: string, attachments: Option<seq<Attachment>>)
    requires Dense(w)
    ensures var (w1, added) := Add(w, p);
      var edited := added.(text := text, attachments := attachments);
      Update(w1, edited) == (Wall(w.posts + [edited], w.nextId + 1), true)
  {
    var (w1, added) := Add(w, p);
    var edited := added.(text := text, attachments := attachments);
    AddKeepsDense(w, p);
    UpdateInDenseStore(w1, edited);
    assert w1.posts[edited.id - 1 := edited] == w.posts + [edited];
  }

  /** Two adds to a new store return ids 1 and 2, stored in that order. */
  lemma TwoAddsScenario()
    ensures var (w1, a) := Add(Initial, Post(0, 1, 1, 1234567890, "First post"));
      var (w2, b) := Add(w1, Post(0, 1, 1, 1234567891, "Second post"));
      && a.id == 1 && b.id == 2
      && |w2.posts| == 2 && w2.posts[0].id == 1 && w2.posts[1].id == 2
  {
  }

  /** An added post keeps its single photo attachment: tag "photo", width 800. */
  lemma PhotoAttachmentScenario()
    ensures var photo := PhotoAttachment(Photo(1, 1, "photo_url", 800, 600));
      var added := Add(Initial, Post(0, 1, 1, 1234567890, "Post with photo", Some([photo]))).1;
      && added.attachments.Some?
      && |added.attachments.value| == 1
      && added.attachments.value[0].Type() == "photo"
      && added.attachments.value[0].photo.width == 800
  {
  }

  /**
   An added post keeps three attachments in order; the first one tagged
   "video" is the video, with its title. The photo took the default size.
   */
  lemma MultipleAttachmentsScenario()
    ensures var atts := [
        PhotoAttachment(Photo(1, 1, "photo_url")),
        VideoAttachment(Video(1, 1, "Video", 120)),
        AudioAttachment(Audio(1, 1, "Artist", "Song", 180))
      ];
      var added := Add(Initial, Post(0, 1, 1, 1234567890, "Post with attachments", Some(atts))).1;
      && added.attachments == Some(atts)
      && |added.attachments.value| == 3
      && added.attachments.value[0].Type() != "video"
      && added.attachments.value[1].Type() == "video"
      && added.attachments.value[1].video.title == "Video"
      && added.attachments.value[0].photo.width == 0
  {
  }

  /** Updating an id that no stored post carries answers false and changes nothing. */
  lemma UpdateMissingScenario(w: Wall)
    requires Dense(w)
    ensures Update(w, Post(0, 1, 1, 1234567890, "Non-existent")).0 == w
    ensures !Update(w, Post(0, 1, 1, 1234567890, "Non-existent")).1
    ensures Update(Initial, Post(999, 1, 1, 1234567890, "Non-existent")) == (Initial, false)
  {
    UpdateInDenseStore(w, Post(0, 1, 1, 1234567890, "Non-existent"));
  }

  /**
   Replacing a post's document attachment with a link through `update`: the
   stored post then has the new text and the link as its first attachment.
   */
  lemma UpdateAttachmentsScenario()
    ensures var doc := DocAttachment(Doc(1, 1, "doc.pdf", 1024, "pdf"));
      var link := LinkAttachment(Link("https://example.com", "Example"));
      var (w1, added) := Add(Initial, Post(0, 1, 1, 1234567890, "Original", Some([doc])));
      var (w2, found) := Update(w1, added.(text := "Updated", attachments := Some([link])));
      && found
      && w2.posts[0].text == "Updated"
      && w2.posts[0].attachments.value[0].Type() == "link"
      && w2.posts[0].attachments.value[0].link.title == "Example"
  {
    var doc := DocAttachment(Doc(1, 1, "doc.pdf", 1024, "pdf"));
    var link := LinkAttachment(Link("https://example.com", "Example"));
    AddThenUpdate(Initial, Post(0, 1, 1, 1234567890, "Original", Some([doc])), "Updated", Some([link]));
  }

  /** Two adds, a clear, then an add: the last add is given id 1, not 3. */
  lemma ClearScenario(p: Post, q: Post, r: Post)
    ensures var w := Run(Initial, [AddCall(p), AddCall(q), ClearCall]);
      && w.posts == []
      && Add(w, r).1.id == 1
  {
    var calls := [AddCall(p), AddCall(q), ClearCall];
    var w1 := Step(Initial, calls[0]);
    var w2 := Step(w1, calls[1]);
    assert Run(Initial, calls) == Run(w1, calls[1..]);
    assert calls[1..][1..] == [ClearCall];
    assert Run(w1, calls[1..]) == Run(w2, [ClearCall]);
    assert Run(w2, [ClearCall]) == Run(Clear(w2), []);
  }
}
