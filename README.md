# Event API core, modelled in Dafny

A model of the sequential core of a small Rocket web service that stores time-ranged
*events* and the *comments* attached to them, and returns them wrapped in a uniform
response *envelope* enriched with hypermedia affordances (links and action templates).

| Dafny module | file | models |
|---|---|---|
| `Wrappers`, `Ints` | `wrappers.dfy`, `ints.dfy` | Rust's `Option` (with `unwrap_or`) and the `i32`/`i64` widths |
| `Seqs` | `seqs.dfy` | the iterator pipelines `filter(..).collect()` and `map(..).collect()` |
| `Envelope` | `envelope.dfy` | `src/envelope/mod.rs`: `Status`, `Error`, `Link`, `MethodType`, `Template`, `Property`, `Envelope` and the constructors `error`/`success` |
| `Model` | `model.dfy` | `src/model/mod.rs`: the `Event` and `Comment` records |
| `Db` | `db.dfy` | `src/db/mod.rs`: `EventFilter`, `CommentFilter`, `add_affordances`, `get_update_properties`, `get_comment_properties` |
| `FileBased` | `file_based.dfy` | `src/db/file_based.rs`: the event/comment filters, lookups, create, update and the stub operations |

The file-backed store is the class `FileBased.FileBasedEventDb`. Its fields `events` and
`comments` stand for the contents of `data/events.json` and `data/comments.json`: reading
a file is reading the field and writing it is assigning the field. The closures the
source passes to `filter` and `map` are the functions `EventMatches`, `CommentMatches`,
`EventHasId`, `CommentHasId` and `ReplaceWhenSameId`, and the pure parts of the store
(`filter_events`, the `get_comments` filter, the `get_event`/`get_comment` lookups and
the `update_event` rewrite) are functions over sequences that the class's methods apply
to its fields. `create_event`/`create_comment` push onto the stored sequence and write it
back, so they are methods that modify the store.

`add_affordances` and the two property builders build their results by successive
pushes, so they are methods. Their contracts are the declarative predicates
`IsAfforded`, `IsUpdateForm` and `IsCommentForm`. Lemmas show that these predicates
admit exactly one result, that earlier affordances are overwritten rather than
extended, and that attaching affordances twice changes nothing.

The JSON payload type `JsonValue` of the envelope is the type parameter `J`. Renamed
fields: `_links`/`_templates` are `links`/`templates`, a template's `method` is
`httpMethod` (`method` is a Dafny keyword), the constructor of the `Error` record is `ErrorInfo` (so that it differs from `Status.Error`), and the Rust functions `error`/`success` are
`MakeError`/`MakeSuccess`.

The model follows the code in these modelling decisions:
- The envelope keeps `links` and `templates` as the ordered lists it is given. It does
  not turn them into maps keyed by name, so duplicate keys are kept.
- The comment filter treats an empty string like an absent value, because the code
  does that with `unwrap_or("")`.
- A lookup of an id that is not stored is not a "not found" result. The code takes
  the first match and unwraps it, so the model requires that a match exists.
- Only event affordances exist in the code. There are no comment affordances and no
  collection affordances.
- `update_event` makes no check that `event.id` is set. An update whose id is absent
  replaces every stored event that has no id.
- The interval filter is asymmetric. An event with no end always passes the lower
  bound. The upper bound still rejects an event whose start or end lies after it.
  The model keeps this asymmetry.

## Model

| member | source | states |
|---|---|---|
| `Wrappers.Option.GetOr` | src/db/file_based.rs:66-67 | `unwrap_or` gives the carried value when there is one, and the default otherwise. |
| `Seqs.Filter` | src/db/file_based.rs:130-154 | `filter(..).collect()` returns an order-preserving subsequence of its input. Each kept element occurs exactly as often as in the input, each dropped element not at all, and no element is altered. |
| `Seqs.Map` | src/db/file_based.rs:40-49 | `map(..).collect()` has the input's length, and position `i` holds the image of input position `i`. |
| `Seqs.FilterKeepsAll` | src/db/file_based.rs:130-154 | When every element passes the closure, filtering returns the input unchanged. |
| `Seqs.FilterHeadIsFirstMatch` | src/db/file_based.rs:20-25 | When `k` is the first position that passes the closure, `filter(..).collect().first()` is the element at `k`. |
| `FileBased.EventMatches` | src/db/file_based.rs:132-153 | The closure's early returns amount to five independent conditions: each set `appName`/`sourceId`/`sourceName` agrees, the event does not end before a lower bound, and it does not reach past an upper bound. |
| `FileBased.FilterEvents` | src/db/file_based.rs:124-155 | Without a filter the stored events come back unchanged. With a filter the result is an order-preserving subsequence of the store. Every matching event is kept as often as it is stored, and every other event is dropped. |
| `FileBased.MetadataMustAgree` | src/db/file_based.rs:133-141 | A set `appName`, `sourceId` or `sourceName` rejects every event whose field differs, including an event whose field is absent. |
| `FileBased.LowerBoundRejectsEndedEvents` | src/db/file_based.rs:142-146 | Adding a lower bound `lo` rejects exactly the events with `from < lo` that have an end with `to < lo`. All other events are judged as without the bound. |
| `FileBased.OpenEndedEventsPassLowerBound` | src/db/file_based.rs:142-146 | An event without `to` is never rejected by the lower bound. |
| `FileBased.UpperBoundRejectsLateEvents` | src/db/file_based.rs:147-151 | Adding an upper bound `hi` rejects exactly the events with `from > hi` or with an end `to > hi`. All other events are judged as without the bound. |
| `FileBased.EmptyEventFilterKeepsAll` | src/db/file_based.rs:132-154 | A filter whose fields are all absent returns every stored event, in order. |
| `FileBased.RangeFilterSamples` | src/db/file_based.rs:142-151 | Samples: [10,20] passes "from 15". [5,8] fails "from 10". [5,open) passes "from 100" and fails "to 3". |
| `FileBased.CommentMatches` | src/db/file_based.rs:65-79 | A comment matches iff each of `eventId`/`userId` in the filter is absent, is `""`, or equals the comment's field exactly. |
| `FileBased.FilterComments` | src/db/file_based.rs:59-81 | Without a filter all comments come back. With a filter the result is an order-preserving subsequence of the store. Every matching comment is kept as often as it is stored, and every other comment is dropped. |
| `FileBased.EventHasId` | src/db/file_based.rs:22 | The lookup closure accepts exactly the events whose id is `Some(id)`. |
| `FileBased.CommentHasId` | src/db/file_based.rs:88 | The lookup closure accepts exactly the comments whose id is `Some(id)`. |
| `FileBased.FindEvent` | src/db/file_based.rs:18-26 | `get_event` yields a stored event that carries the requested id. It requires that one exists, because the code unwraps. |
| `FileBased.FindEventIsFirstMatch` | src/db/file_based.rs:18-26 | `get_event` yields the first stored event that carries the id. |
| `FileBased.FindComment` | src/db/file_based.rs:83-91 | `get_comment` yields a stored comment that carries the requested id. It requires that one exists, because the code unwraps. |
| `FileBased.FindCommentIsFirstMatch` | src/db/file_based.rs:83-91 | `get_comment` yields the first stored comment that carries the id. |
| `FileBased.ReplaceWhenSameId` | src/db/file_based.rs:42-48 | The update closure maps an event whose id equals the argument's id (two absent ids included) to the argument, and every other event to itself. |
| `FileBased.ReplaceById` | src/db/file_based.rs:37-52 | `update_event` keeps the store's length. Every event whose id equals `event.id` becomes `event`, with two absent ids counting as equal. Every other event stays as it was. |
| `FileBased.UpdatedEventIsFound` | src/db/file_based.rs:37-52 | After updating with id `x` a store that held `x`, looking `x` up yields the update's argument. |
| `FileBased.CreatedEventIsFound` | src/db/file_based.rs:28-35 | After `create_event` under an id no stored event carries, looking that id up yields the created event. |
| `FileBased.CreatedCommentIsFound` | src/db/file_based.rs:93-100 | After `create_comment` under an id no stored comment carries, looking that id up yields the created comment. |
| `FileBased.FileBasedEventDb.constructor` | src/db/file_based.rs:7-10 | The store starts with the given contents of the two files. |
| `FileBased.FileBasedEventDb.GetEvents` | src/db/file_based.rs:14-16 | `get_events` returns the stored events filtered by `filter_events`. |
| `FileBased.FileBasedEventDb.GetEvent` | src/db/file_based.rs:18-26 | `get_event` returns the first stored event with the id and leaves the store untouched. |
| `FileBased.FileBasedEventDb.CreateEvent` | src/db/file_based.rs:28-35 | The store grows by exactly one event, appended at the end. That event is the argument with its id replaced by the fresh id, and it is returned. Comments are untouched. |
| `FileBased.FileBasedEventDb.UpdateEvent` | src/db/file_based.rs:37-52 | The stored events become `ReplaceById` of the old ones. The argument is returned. Comments are untouched. |
| `FileBased.FileBasedEventDb.DeleteEvent` | src/db/file_based.rs:54-57 | Returns `false` and modifies nothing. |
| `FileBased.FileBasedEventDb.GetComments` | src/db/file_based.rs:59-81 | `get_comments` returns the stored comments filtered by the comment filter. |
| `FileBased.FileBasedEventDb.GetComment` | src/db/file_based.rs:83-91 | `get_comment` returns the first stored comment with the id and leaves the store untouched. |
| `FileBased.FileBasedEventDb.CreateComment` | src/db/file_based.rs:93-100 | The store grows by exactly one comment, appended at the end. That comment is the argument with its id replaced by the fresh id, and it is returned. Events are untouched. |
| `FileBased.FileBasedEventDb.UpdateComment` | src/db/file_based.rs:102-105 | Returns its argument and modifies nothing. |
| `FileBased.FileBasedEventDb.DeleteComment` | src/db/file_based.rs:107-110 | Returns `false` and modifies nothing. |
| `Db.EventLinks` | src/db/mod.rs:41-48 | An event has two links, `self` and then `comments`. The `self` href is `/events/` followed by the id, and the `comments` href is the `self` href followed by `/comments`. |
| `Db.GetUpdateProperties` | src/db/mod.rs:80-101 | The update form lists `from, to, text, appName, sourceId, sourceName` in that order. Only `from` and `text` are required. None is read-only, pre-filled, prompted or templated. |
| `Db.GetCommentProperties` | src/db/mod.rs:103-118 | The comment form lists `eventId, userId, comment, timestamp` in that order. `eventId` is required, read-only and pre-filled with the event id. `userId` and `comment` are required and `timestamp` is optional. Only `eventId` has a value and only `eventId` is read-only. |
| `Db.AddAffordances` | src/db/mod.rs:39-78 | An event without id comes back unchanged. Otherwise only `links` and `templates` change. Links are `self → /events/x` then `comments → /events/x/comments`. Templates are `delete` (DELETE, target `self`, no form), `update` (PATCH, target `self`, update form) and `comment` (POST, target `comments`, comment form), in that order and all without title. |
| `Db.UpdateFormIsUnique` | src/db/mod.rs:80-101 | The update form's description determines it completely. |
| `Db.CommentFormIsUnique` | src/db/mod.rs:103-118 | The comment form's description, given the event id, determines it completely. |
| `Db.AffordedIsUnique` | src/db/mod.rs:39-78 | `add_affordances` is deterministic: its description admits exactly one result per event. |
| `Db.AffordancesOverwrite` | src/db/mod.rs:39-78 | For an event with an id, earlier `links`/`templates` are overwritten, not extended. The result does not depend on them. |
| `Db.AffordancesIdempotent` | src/db/mod.rs:39-78 | Applying `add_affordances` to its own result gives that result back. |
| `Envelope.MakeError` | src/envelope/mod.rs:81-93 | `error(code, desc)` has status `Error`, no data, error `{code, desc}`, no links or templates, and no pagination fields. |
| `Envelope.MakeSuccess` | src/envelope/mod.rs:95-106 | `success(data, links, templates)` has status `OK`, data `Some(data)` and no error. It keeps links and templates exactly as given and has no pagination fields. |
| `Envelope.ExactlyOneOfDataAndError` | src/envelope/mod.rs:81-106 | In a well-formed envelope exactly one of `data` and `error` is present. Both constructors build well-formed envelopes, where `data` is absent iff the status is `Error` and `error` is absent iff the status is `OK`. |
| `Envelope.ErrorEnvelopeIsCanonical` | src/envelope/mod.rs:81-93 | Every well-formed, unpaged, link-free failure envelope is `error` applied to the code and description it carries. |
| `Envelope.SuccessEnvelopeIsCanonical` | src/envelope/mod.rs:95-106 | Every well-formed, unpaged success envelope is `success` applied to its own data, links and templates. |

## Left out

- Filesystem access and JSON encoding (`read_events`, `write_events`, `read_comments`, `write_comments`, src/db/file_based.rs:113-122, 157-166). The two files are the class's fields. Because of this the `Err` path of the `EventDb` methods is not modelled: only a JSON parse failure reaches it, through `?`. A failed file read, a failed serialization and a failed file write panic through `expect`, and those panics are not modelled either.
- `create_uuid` (src/db/mod.rs:35-37) draws a random UUID. The fresh id is a parameter of `CreateEvent`/`CreateComment` instead. The code does not check uniqueness, so none is claimed. The lookup-after-create lemmas assume the id is fresh.
- FileBased.FileBasedEventDb.GetEvent: it requires that a stored event carries the id, because `first().unwrap()` panics otherwise. The panic is not modelled as a result value.
- FileBased.FileBasedEventDb.GetComment: it requires a matching comment, for the same reason.
- The `EventDb` trait (src/db/mod.rs:22-33) is not modelled as a separate interface. Its only implementation is the class `FileBasedEventDb`.
- The `Responder` implementation and the serde attributes of src/envelope/mod.rs (JSON serialization, HTTP headers) are transport concerns.
- src/bin.rs is left out. It holds HTTP routing, URL decoding and start-up, and it calls storage functions that do not exist in src/db/mod.rs.
- The commented-out `Data` implementations in src/model/mod.rs:31-51 are not compiled by the source, so they are not modelled.
