/**
 The data model of the wall: the five payload records, the closed set of
 attachment variants that wrap them, and the `Post` record with its
 hand-written structural equality.
 */
module DataModel {
  import opened Wrappers

  /** A photo; width and height default to 0 as in the Kotlin constructor. */
  datatype Photo = Photo(id: int, ownerId: int, url: string, width: int := 0, height: int := 0)

  /** A video; `duration` is in seconds. */
  datatype Video = Video(id: int, ownerId: int, title: string, duration: int)

  /** An audio track; `duration` is in seconds. */
  datatype Audio = Audio(id: int, ownerId: int, artist: string, title: string, duration: int)

  /** A document; `size` is in bytes, `ext` is the file extension. */
  datatype Doc = Doc(id: int, ownerId: int, title: string, size: int, ext: string)

  /** A link, identified by its URL only. */
  datatype Link = Link(url: string, title: string)

  /**
   An attachment is exactly one of five variants, each wrapping the payload of
   its kind. The kind tag is not stored: `Type()` derives it from the variant,
   so the tag and the payload can never disagree.
   */
  datatype Attachment =
    | PhotoAttachment(photo: Photo)
    | VideoAttachment(video: Video)
    | AudioAttachment(audio: Audio)
    | DocAttachment(doc: Doc)
    | LinkAttachment(link: Link)
  {
    /** The kind tag of this attachment. */
    function Type(): (t: string)
      ensures t == "photo" <==> PhotoAttachment?
      ensures t == "video" <==> VideoAttachment?
      ensures t == "audio" <==> AudioAttachment?
      ensures t == "doc" <==> DocAttachment?
      ensures t == "link" <==> LinkAttachment?
    {
      match this
      case PhotoAttachment(_) => "photo"
      case VideoAttachment(_) => "video"
      case AudioAttachment(_) => "audio"
      case DocAttachment(_) => "doc"
      case LinkAttachment(_) => "link"
    }
  }

  /** Two attachments carry the same tag exactly when they are the same variant. */
  lemma TypeIdentifiesVariant(a: Attachment, b: Attachment)
    ensures a.Type() == b.Type() <==>
      (a.PhotoAttachment? && b.PhotoAttachment?) ||
      (a.VideoAttachment? && b.VideoAttachment?) ||
      (a.AudioAttachment? && b.AudioAttachment?) ||
      (a.DocAttachment? && b.DocAttachment?) ||
      (a.LinkAttachment? && b.LinkAttachment?)
  {
  }

  /**
   A wall post. `attachments` is `None` when the Kotlin array is `null`
   (its default); otherwise the attachments in the order they were supplied.
   */
  datatype Post = Post(
    id: int,
    ownerId: int,
    fromId: int,
    date: int,
    text: string,
    attachments: Option<seq<Attachment>> := None
  )

  /** Everything of a post except its id: what `add` keeps from its argument. */
  predicate SameContent(p: Post, q: Post)
  {
    && p.ownerId == q.ownerId
    && p.fromId == q.fromId
    && p.date == q.date
    && p.text == q.text
    && p.attachments == q.attachments
  }

  /**
   Element-wise comparison of two attachment arrays, in order, as Kotlin's
   `contentEquals` does: same length and equal elements at every position.
   */
  function ContentEquals(a: seq<Attachment>, b: seq<Attachment>): bool
    decreases |a|
  {
    if |a| != |b| then false
    else if |a| == 0 then true
    else a[0] == b[0] && ContentEquals(a[1..], b[1..])
  }

  /** The ordered element-wise comparison is exactly sequence equality. */
  lemma {:induction false} ContentEqualsIsEquality(a: seq<Attachment>, b: seq<Attachment>)
    ensures ContentEquals(a, b) <==> a == b
    decreases |a|
  {
    if |a| == |b| && |a| != 0 {
      ContentEqualsIsEquality(a[1..], b[1..]);
      if a[0] == b[0] && a[1..] == b[1..] {
        assert a == [a[0]] + a[1..];
        assert b == [b[0]] + b[1..];
      }
    }
  }

  /**
   The hand-written `Post.equals`: the scalar fields one by one, then the
   attachments, where an absent array equals only an absent array and two
   present arrays are compared element-wise in order.
   */
  function PostEquals(p: Post, q: Post): bool
  {
    if p.id != q.id then false
    else if p.ownerId != q.ownerId then false
    else if p.fromId != q.fromId then false
    else if p.date != q.date then false
    else if p.text != q.text then false
    else match (p.attachments, q.attachments)
      case (Some(a), Some(b)) => ContentEquals(a, b)
      case (Some(_), None) => false
      case (None, Some(_)) => false
      case (None, None) => true
  }

  /**
   The hand-written equality agrees with structural equality of posts, so it
   is reflexive, symmetric and transitive, and absent attachments never
   equal present ones (not even an empty array).
   */
  lemma PostEqualsIsEquality(p: Post, q: Post)
    ensures PostEquals(p, q) <==> p == q
  {
    if p.attachments.Some? && q.attachments.Some? {
      ContentEqualsIsEquality(p.attachments.value, q.attachments.value);
    }
  }

  /** A post without attachments never equals one with an (even empty) array. */
  lemma AbsentAttachmentsDiffer(p: Post, q: Post)
    requires p.attachments.None? && q.attachments.Some?
    ensures !PostEquals(p, q) && !PostEquals(q, p)
  {
  }
}
