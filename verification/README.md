# Wall store — a Dafny model

This project models a small in-memory store of social-network wall posts,
written in Kotlin as `src/main/kotlin/main.kt`. It has two layers.

- **Data model** (`data_model.dfy`, module `DataModel`). A post may carry
  attachments. There are five kinds: photo, video, audio, document and link.
  Each kind wraps a payload record. The kind tag (`"photo"`, `"video"`,
  `"audio"`, `"doc"`, `"link"`) is computed from the variant, so for the five
  declared attachment classes a tag can never disagree with its payload. `Post` keeps its attachments as an
  optional ordered sequence; `None` stands for Kotlin's `null`. The
  hand-written `Post.equals` is modelled as `PostEquals` and proved to be
  exactly structural equality.
- **Wall store** (`store.dfy`, module `Store`). The store's state is the
  ordered posts plus the next-id counter. `add`, `update` and `clear` are
  pure transitions on that state. The `update` loop of the source is also
  modelled as it is written, in the method `ReplaceFirstMatch`.
  `service.dfy` (module `Service`) wraps the transitions in a class
  `WallService`. This class stands in for the Kotlin singleton `object`. Its
  `GetPosts` returns a newly allocated array with the stored posts. The
  class methods are specified with `modifies`, `old` and `fresh`; their
  contracts tie the object to the pure transitions in `Store`, and the
  properties are proved about those transitions.
  `properties.dfy` (module `Properties`) proves properties of whole call
  sequences, and restates the scenarios from
  `src/test/kotlin/WallServiceTest.kt` as lemmas.

The main invariant proved is `Store.Dense`. Every state reachable from a new
or cleared store holds ids 1, 2, 3, … in order, and the counter is one past
the last id. So stored ids are positive, distinct, strictly increasing and
below the counter.

`update` cannot change a slot's identity. It stores the replacement only at
a position whose id equals the replacement's id (`main.kt:116-117`).
`Store.UpdateKeepsIds` proves that the id at every position is unchanged.

## Model

| member | source | states |
|---|---|---|
| DataModel.Attachment.Type | src/main/kotlin/main.kt:5-59 | the tag is "photo", "video", "audio", "doc" or "link" exactly when the attachment is a photo, video, audio, document or link |
| DataModel.TypeIdentifiesVariant | src/main/kotlin/main.kt:1-59 | two attachments have the same `type` tag exactly when they are the same variant; there are five distinct tags |
| DataModel.ContentEqualsIsEquality | src/main/kotlin/main.kt:85-88 | `ContentEquals`, the model of `contentEquals` (line 87): the ordered, element-wise comparison of two attachment arrays holds exactly when the sequences are equal |
| DataModel.PostEqualsIsEquality | src/main/kotlin/main.kt:74-91 | `PostEquals`, the model of the hand-written `equals`: the hand-written `equals` holds exactly when every field is equal, with attachments compared in order and a null array equal only to a null array |
| DataModel.AbsentAttachmentsDiffer | src/main/kotlin/main.kt:85-88 | a post without an attachment array never equals one that has an array, even an empty one, in either direction |
| Store.FirstIndex | src/main/kotlin/main.kt:115-120 | the search finds a position exactly when some post has the id; that position has the id, and no earlier position does |
| Store.Add | src/main/kotlin/main.kt:108-112 | the returned post is the submitted one with only its id changed, to the old counter; it is appended after the unchanged earlier posts; the counter grows by exactly 1 |
| Store.Update | src/main/kotlin/main.kt:114-122 | answers true exactly when some stored post has the id; then only the first such position becomes the new post, and the length stays the same; on false nothing changes; the counter never changes |
| Store.Clear | src/main/kotlin/main.kt:124-127 | the store is empty and the counter is 1, whatever the state before |
| Store.ReplaceFirstMatch | src/main/kotlin/main.kt:115-121 | the index loop as written: it replaces the first match and reports true, or returns the posts untouched and reports false exactly when no post has the id |
| Store.DenseIdsOrdered | src/main/kotlin/main.kt:105-111 | in a dense store, ids are positive, below the counter, and strictly increasing by position, so they are distinct |
| Store.AddKeepsDense | src/main/kotlin/main.kt:108-111 | `add` keeps a store dense, and the id it assigns is one past the last stored id |
| Store.UpdateInDenseStore | src/main/kotlin/main.kt:114-121 | in a dense store, `update(p)` succeeds exactly when 1 <= p.id < nextId, and then replaces position p.id-1 with p |
| Store.UpdateKeepsIds | src/main/kotlin/main.kt:116-117 | `update` leaves the id at every position unchanged, so a dense store stays dense |
| Store.ClearThenAdd | src/main/kotlin/main.kt:124-127 | after `clear` the store is empty with counter 1, and the next `add` returns id 1 and stores only that post |
| Service.WallService.Add | src/main/kotlin/main.kt:108-112 | the object's new state and the returned post are those of the pure `add` transition |
| Service.WallService.Update | src/main/kotlin/main.kt:114-122 | the source's loop changes the object's state and returns the answer exactly as the pure `update` transition does |
| Service.WallService.Clear | src/main/kotlin/main.kt:124-127 | the object's new state is the cleared state |
| Service.WallService.GetPosts | src/main/kotlin/main.kt:129-131 | returns a newly allocated array whose contents are the stored posts in order, and changes no state |
| Service.ReadTwice | src/test/kotlin/WallServiceTest.kt:112-122 | two reads return different arrays with equal contents |
| Service.WriteIntoCopy | src/main/kotlin/main.kt:129-131 | writing into a returned array changes neither the store nor what a later read returns |
| Properties.RunKeepsDense | src/main/kotlin/main.kt:104-131 | any sequence of add, update, clear and getPosts calls keeps a dense store dense |
| Properties.ReachableStates | src/main/kotlin/main.kt:105-111 | from a new store, every reachable state has ids 1..n in order; they are positive, distinct, increasing and below the counter |
| Properties.AddAllNumbersConsecutively | src/main/kotlin/main.kt:108-111 | successive `add` calls return ids counter, counter+1, … in call order; each keeps its submitted content; the posts are appended in call order |
| Properties.ConsecutiveAdds | src/test/kotlin/WallServiceTest.kt:19-28 | two adds in a row return ids n and n+1 |
| Properties.AddsAfterClearStartAtOne | src/main/kotlin/main.kt:124-127 | after `clear`, adds alone return ids exactly 1, 2, 3, …, and the store then holds exactly those posts |
| Properties.AddThenUpdate | src/test/kotlin/WallServiceTest.kt:30-37 | submitting a just-added post to `update` with new text and attachments succeeds; the last stored post becomes the edited one and nothing else changes |
| Properties.TwoAddsScenario | src/test/kotlin/WallServiceTest.kt:19-28 | two adds to a new store return ids 1 and 2, stored in that order |
| Properties.PhotoAttachmentScenario | src/test/kotlin/WallServiceTest.kt:45-65 | an added post keeps its one photo attachment, with tag "photo" and width 800 |
| Properties.MultipleAttachmentsScenario | src/test/kotlin/WallServiceTest.kt:67-83 | an added post keeps its three attachments in order; the first one tagged "video" is the video titled "Video" |
| Properties.UpdateMissingScenario | src/test/kotlin/WallServiceTest.kt:39-43 | updating an id that no stored post has answers false and leaves the state unchanged |
| Properties.UpdateAttachmentsScenario | src/test/kotlin/WallServiceTest.kt:85-110 | replacing a document attachment with a link by `update` leaves the new text and the link in the stored post |
| Properties.ClearScenario | src/test/kotlin/WallServiceTest.kt:124-132 | after two adds and a clear the store is empty, and the next add returns id 1, not 3 |

## Left out

- `Post.hashCode` (`main.kt:93-101`). It depends on 32-bit wrapping arithmetic and on the JVM's string hash. It adds nothing that equality does not already say.
- Store.Add: ids and the counter are unbounded integers. Kotlin's `Int` would wrap after 2^31-1 adds; that overflow is not modelled.
- The `this === other` fast path and the `javaClass` check in `equals`. Dafny values have no reference identity, and `PostEquals` compares only posts, so both are subsumed by structural equality.
- The process-wide singleton. It is replaced by an explicit `WallService` instance and by the `Wall` state value.
- Mutable Kotlin arrays inside a post (`Post.attachments`). They are modelled as immutable sequences. The deep-copy question for attachments therefore does not arise; `GetPosts` copies only the outer array, as `copyOf` does.
- Other implementations of the open Kotlin `Attachment` interface (`main.kt:1-3`). The interface is not sealed, so any class may implement it and return any `type` string. The model's attachment type is closed over the five declared classes (`main.kt:6-59`); `DataModel.Attachment.Type` and `DataModel.TypeIdentifiesVariant` describe those five classes only.
- Validation of payload values, such as a negative duration or size. The source has none, so the model has none.
- The JUnit harness. Its assertions appear only as the scenario lemmas in `Properties`.
