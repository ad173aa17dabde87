/**
 * The file-backed store (src/db/file_based.rs). The two JSON files become the
 * `events` and `comments` fields of `FileBasedEventDb`: reading a file is reading the
 * field, writing it is assigning the field.
 */
module FileBased {
  import opened Wrappers
  import opened Ints
  import opened Model
  import opened Db
  import opened Seqs

  /** A set filter field requires the event's field to be equal to it; an absent one does not constrain. */
  predicate Agrees(want: Option<string>, have: Option<string>) {
    want.None? || have == want
  }

  /** The event starts before `lo` and has an end that is also before `lo`. */
  predicate EndsBefore(event: Event, lo: i64) {
    event.from < lo && event.to.Some? && event.to.value < lo
  }

  /** The event starts after `hi`, or has an end after `hi`. */
  predicate ReachesPast(event: Event, hi: i64) {
    event.from > hi || (event.to.Some? && event.to.value > hi)
  }

  /**
   * The closure of `filter_events`: does `event` pass every set field of `filter`?
   * The chain of early returns amounts to five independent conditions.
   */
  function EventMatches(filter: EventFilter, event: Event): (matches: bool)
    ensures matches <==>
      && Agrees(filter.appName, event.appName)
      && Agrees(filter.sourceId, event.sourceId)
      && Agrees(filter.sourceName, event.sourceName)
      && !(filter.from.Some? && EndsBefore(event, filter.from.value))
      && !(filter.to.Some? && ReachesPast(event, filter.to.value))
  {
    if filter.appName.Some? && event.appName != filter.appName then false
    else if filter.sourceId.Some? && event.sourceId != filter.sourceId then false
    else if filter.sourceName.Some? && event.sourceName != filter.sourceName then false
    else if filter.from.Some? && event.from < filter.from.value && event.to.Some? && event.to.value < filter.from.value then false
    else if filter.to.Some? && (event.from > filter.to.value || (event.to.Some? && event.to.value > filter.to.value)) then false
    else true
  }

  /** `filter_events` over the stored events: everything without a filter, else the matching ones. */
  function FilterEvents(events: seq<Event>, filter: Option<EventFilter>): (r: seq<Event>)
    ensures filter.None? ==> r == events
    ensures IsSubsequence(r, events)
    ensures forall e :: e in r <==> e in events && (filter.None? || EventMatches(filter.value, e))
    ensures forall e :: multiset(r)[e] == if filter.None? || EventMatches(filter.value, e) then multiset(events)[e] else 0
  {
    match filter
    case None => SubsequenceOfItself(events); events
    case Some(f) => Filter(events, e => EventMatches(f, e))
  }

  /** A set `appName`, `sourceId` or `sourceName` rejects every event whose field differs, an absent one included. */
  lemma MetadataMustAgree(filter: EventFilter, event: Event)
    ensures filter.appName.Some? && event.appName != filter.appName ==> !EventMatches(filter, event)
    ensures filter.sourceId.Some? && event.sourceId != filter.sourceId ==> !EventMatches(filter, event)
    ensures filter.sourceName.Some? && event.sourceName != filter.sourceName ==> !EventMatches(filter, event)
  {
  }

  /** A lower bound `lo` rejects exactly the events that end before it; everything else is decided by the other fields. */
  lemma LowerBoundRejectsEndedEvents(filter: EventFilter, event: Event, lo: i64)
    ensures EventMatches(filter.(from := Some(lo)), event)
        <==> EventMatches(filter.(from := None), event) && !EndsBefore(event, lo)
  {
  }

  /** An event without an end is never rejected by the lower bound, however early it starts. */
  lemma OpenEndedEventsPassLowerBound(filter: EventFilter, event: Event, lo: i64)
    requires event.to.None?
    ensures EventMatches(filter.(from := Some(lo)), event) == EventMatches(filter.(from := None), event)
  {
    LowerBoundRejectsEndedEvents(filter, event, lo);
  }

  /** An upper bound `hi` rejects exactly the events that start after it or end after it. */
  lemma UpperBoundRejectsLateEvents(filter: EventFilter, event: Event, hi: i64)
    ensures EventMatches(filter.(to := Some(hi)), event)
        <==> EventMatches(filter.(to := None), event) && !ReachesPast(event, hi)
  {
  }

  /** A filter with every field absent passes every event: the stored events come back unchanged. */
  lemma EmptyEventFilterKeepsAll(events: seq<Event>)
    ensures FilterEvents(events, Some(EventFilter(None, None, None, None, None))) == events
  {
    var f := EventFilter(None, None, None, None, None);
    FilterKeepsAll(events, e => EventMatches(f, e));
  }

  /**
   * The interval test on sample events: [10, 20] overlaps "from 15"; [5, 8] ends
   * before "from 10"; [5, open) passes "from 100" but not "to 3".
   */
  lemma RangeFilterSamples(e: Event)
    ensures EventMatches(EventFilter(Some(15), None, None, None, None), e.(from := 10, to := Some(20), appName := None, sourceId := None, sourceName := None))
    ensures !EventMatches(EventFilter(Some(10), None, None, None, None), e.(from := 5, to := Some(8)))
    ensures EventMatches(EventFilter(Some(100), None, None, None, None), e.(from := 5, to := None))
    ensures !EventMatches(EventFilter(None, Some(3), None, None, None), e.(from := 5, to := None))
  {
  }

  /** A filter value that is absent or the empty string. */
  predicate Unset(value: Option<string>) {
    value.None? || value == Some("")
  }

  /**
   * The closure of `get_comments`: an `eventId`/`userId` filter value that is absent
   * or the empty string does not constrain; any other must equal the comment's field.
   */
  function CommentMatches(filter: CommentFilter, comment: Comment): (matches: bool)
    ensures matches <==>
      && (Unset(filter.eventId) || filter.eventId == Some(comment.eventId))
      && (Unset(filter.userId) || filter.userId == Some(comment.userId))
  {
    var eventId := filter.eventId.GetOr("");
    var userId := filter.userId.GetOr("");
    if eventId != "" && eventId != comment.eventId then false
    else if userId != "" && userId != comment.userId then false
    else true
  }

  /** `get_comments` over the stored comments: everything without a filter, else the matching ones. */
  function FilterComments(comments: seq<Comment>, filter: Option<CommentFilter>): (r: seq<Comment>)
    ensures filter.None? ==> r == comments
    ensures IsSubsequence(r, comments)
    ensures forall c :: c in r <==> c in comments && (filter.None? || CommentMatches(filter.value, c))
    ensures forall c :: multiset(r)[c] == if filter.None? || CommentMatches(filter.value, c) then multiset(comments)[c] else 0
  {
    match filter
    case None => SubsequenceOfItself(comments); comments
    case Some(f) => Filter(comments, c => CommentMatches(f, c))
  }

  /** The closure of `get_event`: `e.id == Some(id)`. */
  function EventHasId(id: string): (hasId: Event -> bool)
    ensures forall e :: hasId(e) <==> e.id == Some(id)
  {
    (e: Event) => e.id == Some(id)
  }

  /** The closure of `get_comment`: `c.id == Some(id)`. */
  function CommentHasId(id: string): (hasId: Comment -> bool)
    ensures forall c :: hasId(c) <==> c.id == Some(id)
  {
    (c: Comment) => c.id == Some(id)
  }

  /** `get_event`: the first of the events carrying `id`; the source unwraps, so one must exist. */
  function FindEvent(events: seq<Event>, id: string): (r: Event)
    requires exists e :: e in events && e.id == Some(id)
    ensures r in events && r.id == Some(id)
  {
    var matches := Filter(events, EventHasId(id));
    assert |matches| > 0 by {
      var e :| e in events && e.id == Some(id);
      assert e in matches;
    }
    assert matches[0] in matches;
    matches[0]
  }

  /** `get_comment`: the first of the comments carrying `id`; the source unwraps, so one must exist. */
  function FindComment(comments: seq<Comment>, id: string): (r: Comment)
    requires exists c :: c in comments && c.id == Some(id)
    ensures r in comments && r.id == Some(id)
  {
    var matches := Filter(comments, CommentHasId(id));
    assert |matches| > 0 by {
      var c :| c in comments && c.id == Some(id);
      assert c in matches;
    }
    assert matches[0] in matches;
    matches[0]
  }

  /** The closure of `update_event`: an event with the same id (absent ids included) becomes `event`. */
  function ReplaceWhenSameId(event: Event): (replace: Event -> Event)
    ensures forall e: Event :: e.id == event.id ==> replace(e) == event
    ensures forall e: Event :: e.id != event.id ==> replace(e) == e
  {
    (e: Event) => if e.id == event.id then event else e
  }

  /** The new contents of the events file after `update_event(event)`. */
  function ReplaceById(events: seq<Event>, event: Event): (r: seq<Event>)
    ensures |r| == |events|
    ensures forall i :: 0 <= i < |events| && events[i].id == event.id ==> r[i] == event
    ensures forall i :: 0 <= i < |events| && events[i].id != event.id ==> r[i] == events[i]
  {
    Map(events, ReplaceWhenSameId(event))
  }

  /** `get_event` returns the first stored event carrying the id. */
  lemma FindEventIsFirstMatch(events: seq<Event>, id: string, k: nat)
    requires k < |events| && events[k].id == Some(id)
    requires forall j :: 0 <= j < k ==> events[j].id != Some(id)
    ensures FindEvent(events, id) == events[k]
  {
    FilterHeadIsFirstMatch(events, EventHasId(id), k);
  }

  /** `get_comment` returns the first stored comment carrying the id. */
  lemma FindCommentIsFirstMatch(comments: seq<Comment>, id: string, k: nat)
    requires k < |comments| && comments[k].id == Some(id)
    requires forall j :: 0 <= j < k ==> comments[j].id != Some(id)
    ensures FindComment(comments, id) == comments[k]
  {
    FilterHeadIsFirstMatch(comments, CommentHasId(id), k);
  }

  /** After appending an event under an id no stored event carries, looking that id up yields the appended event. */
  lemma CreatedEventIsFound(events: seq<Event>, event: Event, freshId: string)
    requires forall e :: e in events ==> e.id != Some(freshId)
    ensures var created := event.(id := Some(freshId));
      exists e :: e in events + [created] && e.id == Some(freshId)
    ensures FindEvent(events + [event.(id := Some(freshId))], freshId) == event.(id := Some(freshId))
  {
    var stored := events + [event.(id := Some(freshId))];
    assert stored[|events|] in stored;
    forall j | 0 <= j < |events|
      ensures stored[j].id != Some(freshId)
    {
      assert stored[j] == events[j] && events[j] in events;
    }
    FindEventIsFirstMatch(stored, freshId, |events|);
  }

  /** After appending a comment under an id no stored comment carries, looking that id up yields the appended comment. */
  lemma CreatedCommentIsFound(comments: seq<Comment>, comment: Comment, freshId: string)
    requires forall c :: c in comments ==> c.id != Some(freshId)
    ensures var created := comment.(id := Some(freshId));
      exists c :: c in comments + [created] && c.id == Some(freshId)
    ensures FindComment(comments + [comment.(id := Some(freshId))], freshId) == comment.(id := Some(freshId))
  {
    var stored := comments + [comment.(id := Some(freshId))];
    assert stored[|comments|] in stored;
    forall j | 0 <= j < |comments|
      ensures stored[j].id != Some(freshId)
    {
      assert stored[j] == comments[j] && comments[j] in comments;
    }
    FindCommentIsFirstMatch(stored, freshId, |comments|);
  }

  /** After an update with id `x` of a store that held `x`, looking `x` up yields the update's argument. */
  lemma UpdatedEventIsFound(events: seq<Event>, event: Event, x: string)
    requires event.id == Some(x)
    requires exists e :: e in events && e.id == Some(x)
    ensures exists e :: e in ReplaceById(events, event) && e.id == Some(x)
    ensures FindEvent(ReplaceById(events, event), x) == event
  {
    var updated := ReplaceById(events, event);
    var e :| e in events && e.id == Some(x);
    var i :| 0 <= i < |events| && events[i] == e;
    assert updated[i] in updated;
    var r := FindEvent(updated, x);
    var k :| 0 <= k < |updated| && updated[k] == r;
  }

  /** The file-backed implementation of the event store. */
  class FileBasedEventDb {
    /** Stands for the contents of `data/events.json`. */
    var events: seq<Event>
    /** Stands for the contents of `data/comments.json`. */
    var comments: seq<Comment>

    constructor (events: seq<Event>, comments: seq<Comment>)
      ensures this.events == events && this.comments == comments
    {
      this.events := events;
      this.comments := comments;
    }

    method GetEvents(filter: Option<EventFilter>) returns (r: seq<Event>)
      ensures r == FilterEvents(events, filter)
    {
      r := FilterEvents(events, filter);
    }

    method GetEvent(eventId: string) returns (r: Event)
      requires exists e :: e in events && e.id == Some(eventId)
      ensures r == FindEvent(events, eventId)
    {
      r := FindEvent(events, eventId);
    }

    /** Appends a copy of `event` carrying `freshId` (the generated UUID) and returns that copy. */
    method CreateEvent(event: Event, freshId: string) returns (r: Event)
      modifies this
      ensures r == event.(id := Some(freshId))
      ensures events == old(events) + [r]
      ensures comments == old(comments)
    {
      var stored := events;
      var newEvent := event.(id := Some(freshId));
      stored := stored + [newEvent];
      events := stored;
      r := newEvent;
    }

    /** Replaces every stored event whose id equals `event.id` (no check that it is set) and returns `event`. */
    method UpdateEvent(event: Event) returns (r: Event)
      modifies this
      ensures r == event
      ensures events == ReplaceById(old(events), event)
      ensures comments == old(comments)
    {
      events := ReplaceById(events, event);
      r := event;
    }

    /** A stub: the store is left untouched and nothing is reported deleted. */
    method DeleteEvent(eventId: string) returns (deleted: bool)
      ensures !deleted
    {
      deleted := false;
    }

    method GetComments(filter: Option<CommentFilter>) returns (r: seq<Comment>)
      ensures r == FilterComments(comments, filter)
    {
      r := FilterComments(comments, filter);
    }

    method GetComment(commentId: string) returns (r: Comment)
      requires exists c :: c in comments && c.id == Some(commentId)
      ensures r == FindComment(comments, commentId)
    {
      r := FindComment(comments, commentId);
    }

    /** Appends a copy of `comment` carrying `freshId` (the generated UUID) and returns that copy. */
    method CreateComment(comment: Comment, freshId: string) returns (r: Comment)
      modifies this
      ensures r == comment.(id := Some(freshId))
      ensures comments == old(comments) + [r]
      ensures events == old(events)
    {
      var stored := comments;
      var newComment := comment.(id := Some(freshId));
      stored := stored + [newComment];
      comments := stored;
      r := newComment;
    }

    /** A stub: the store is left untouched and `comment` is handed back. */
    method UpdateComment(comment: Comment) returns (r: Comment)
      ensures r == comment
    {
      r := comment;
    }

    /** A stub: the store is left untouched and nothing is reported deleted. */
    method DeleteComment(commentId: string) returns (deleted: bool)
      ensures !deleted
    {
      deleted := false;
    }
  }
}
