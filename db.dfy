/**
 * The storage interface's shared part (src/db/mod.rs): the two filter descriptors and
 * the builder that attaches hypermedia affordances to an event.
 */
module Db {
  import opened Wrappers
  import opened Ints
  import opened Envelope
  import opened Model

  /** Query for events; an absent field does not constrain. */
  datatype EventFilter = EventFilter(
    from: Option<i64>,
    to: Option<i64>,
    appName: Option<string>,
    sourceId: Option<string>,
    sourceName: Option<string>)

  /** Query for comments; an absent field does not constrain. */
  datatype CommentFilter = CommentFilter(
    eventId: Option<string>,
    userId: Option<string>)

  /** The fields of the "update" form, in the order they are offered. */
  const UpdateFields: seq<string> := ["from", "to", "text", "appName", "sourceId", "sourceName"]

  /** The fields of the "comment" form, in the order they are offered. */
  const CommentFields: seq<string> := ["eventId", "userId", "comment", "timestamp"]

  /** No property of the service's forms has a prompt or a templated flag. */
  predicate Plain(p: Property) {
    p.prompt.None? && p.templated.None?
  }

  /**
   * The "update" form: the six editable event fields, of which only `from` and
   * `text` are required; none is read-only and none is pre-filled.
   */
  ghost predicate IsUpdateForm(ps: seq<Property>) {
    && |ps| == |UpdateFields|
    && (forall i :: 0 <= i < |ps| ==> ps[i].name == UpdateFields[i])
    && (forall i :: 0 <= i < |ps| ==> (ps[i].required <==> ps[i].name == "from" || ps[i].name == "text"))
    && (forall p :: p in ps ==> Plain(p) && !p.readOnly && p.value.None?)
  }

  /**
   * The "comment" form of event `id`: `eventId` is required, read-only and pre-filled
   * with `id`; `userId` and `comment` are required; `timestamp` is optional; nothing
   * else is pre-filled and nothing else is read-only.
   */
  ghost predicate IsCommentForm(ps: seq<Property>, id: string) {
    && |ps| == |CommentFields|
    && (forall i :: 0 <= i < |ps| ==> ps[i].name == CommentFields[i])
    && (forall p :: p in ps ==> Plain(p))
    && ps[0].required && ps[0].readOnly && ps[0].value == Some(id)
    && ps[1].required && ps[2].required && !ps[3].required
    && (forall i :: 1 <= i < |ps| ==> !ps[i].readOnly && ps[i].value.None?)
  }

  /** The two links of a stored event: itself and its comment collection. */
  function EventLinks(id: string): (ls: seq<Link>)
    ensures |ls| == 2 && ls[0].key == "self" && ls[1].key == "comments"
    ensures ls[0].href == "/events/" + id
    ensures ls[1].href == ls[0].href + "/comments"
  {
    [Link("self", "/events/" + id), Link("comments", "/events/" + id + "/comments")]
  }

  /**
   * The three templates of a stored event `id`, in order: `delete` (DELETE on "self",
   * no form), `update` (PATCH on "self", the update form) and `comment` (POST on
   * "comments", the comment form of `id`); none has a title.
   */
  ghost predicate IsEventTemplates(ts: seq<Template>, id: string) {
    && |ts| == 3
    && ts[0] == Template("delete", DELETE, None, Some("self"), None)
    && ts[1].key == "update" && ts[1].httpMethod == PATCH && ts[1].target == Some("self")
    && ts[1].title.None? && ts[1].properties.Some? && IsUpdateForm(ts[1].properties.value)
    && ts[2].key == "comment" && ts[2].httpMethod == POST && ts[2].target == Some("comments")
    && ts[2].title.None? && ts[2].properties.Some? && IsCommentForm(ts[2].properties.value, id)
  }

  /**
   * `r` is `e` with its affordances attached: an event without id is returned as it
   * is; otherwise only `links` and `templates` change, and both are replaced by the
   * event's canonical links and templates.
   */
  ghost predicate IsAfforded(e: Event, r: Event) {
    match e.id
    case None => r == e
    case Some(x) =>
      && r == e.(links := r.links, templates := r.templates)
      && r.links == Some(EventLinks(x))
      && r.templates.Some? && IsEventTemplates(r.templates.value, x)
  }

  /** `get_update_properties`: builds the update form one property at a time. */
  method GetUpdateProperties() returns (properties: seq<Property>)
    ensures IsUpdateForm(properties)
  {
    properties := [];
    properties := properties + [Property("from", None, false, true, None, None)];
    properties := properties + [Property("to", None, false, false, None, None)];
    properties := properties + [Property("text", None, false, true, None, None)];
    properties := properties + [Property("appName", None, false, false, None, None)];
    properties := properties + [Property("sourceId", None, false, false, None, None)];
    properties := properties + [Property("sourceName", None, false, false, None, None)];
  }

  /** `get_comment_properties(id)`: builds the comment form of event `id`. */
  method GetCommentProperties(id: string) returns (properties: seq<Property>)
    ensures IsCommentForm(properties, id)
  {
    properties := [];
    properties := properties + [Property("eventId", None, true, true, None, Some(id))];
    properties := properties + [Property("userId", None, false, true, None, None)];
    properties := properties + [Property("comment", None, false, true, None, None)];
    properties := properties + [Property("timestamp", None, false, false, None, None)];
  }

  /** `add_affordances(event)`: attaches the links and templates of a stored event. */
  method AddAffordances(event: Event) returns (r: Event)
    ensures IsAfforded(event, r)
  {
    r := event;
    match event.id {
      case Some(id) =>
        var links: seq<Link> := [];
        var href := "/events/";
        href := href + id;
        links := links + [Link("self", href)];
        href := href + "/comments";
        links := links + [Link("comments", href)];
        assert links == EventLinks(id);
        r := r.(links := Some(links));

        var templates: seq<Template> := [];
        templates := templates + [Template("delete", DELETE, None, Some("self"), None)];
        var update := GetUpdateProperties();
        templates := templates + [Template("update", PATCH, Some(update), Some("self"), None)];
        var comment := GetCommentProperties(id);
        templates := templates + [Template("comment", POST, Some(comment), Some("comments"), None)];
        r := r.(templates := Some(templates));
      case None =>
    }
  }

  /** The update form is fully determined by its description. */
  lemma UpdateFormIsUnique(a: seq<Property>, b: seq<Property>)
    requires IsUpdateForm(a) && IsUpdateForm(b)
    ensures a == b
  {
    forall i | 0 <= i < |a|
      ensures a[i] == b[i]
    {
      assert a[i] in a && b[i] in b;
    }
  }

  /** The comment form of an event is fully determined by its description and the event's id. */
  lemma CommentFormIsUnique(a: seq<Property>, b: seq<Property>, id: string)
    requires IsCommentForm(a, id) && IsCommentForm(b, id)
    ensures a == b
  {
    forall i | 0 <= i < |a|
      ensures a[i] == b[i]
    {
      assert a[i] in a && b[i] in b;
    }
  }

  /** Attaching affordances is deterministic: the description admits one result only. */
  lemma AffordedIsUnique(e: Event, r1: Event, r2: Event)
    requires IsAfforded(e, r1) && IsAfforded(e, r2)
    ensures r1 == r2
  {
    if e.id.Some? {
      var t1, t2 := r1.templates.value, r2.templates.value;
      UpdateFormIsUnique(t1[1].properties.value, t2[1].properties.value);
      CommentFormIsUnique(t1[2].properties.value, t2[2].properties.value, e.id.value);
      assert t1 == t2;
    }
  }

  /**
   * Earlier `links`/`templates` of an event with an id are overwritten, not extended:
   * the result does not depend on them.
   */
  lemma AffordancesOverwrite(e: Event, links: Option<seq<Link>>, templates: Option<seq<Template>>, r1: Event, r2: Event)
    requires e.id.Some?
    requires IsAfforded(e, r1) && IsAfforded(e.(links := links, templates := templates), r2)
    ensures r1 == r2
  {
    assert IsAfforded(e, r2);
    AffordedIsUnique(e, r1, r2);
  }

  /** Attaching affordances twice gives what attaching them once gives. */
  lemma AffordancesIdempotent(e: Event, r: Event, r2: Event)
    requires IsAfforded(e, r) && IsAfforded(r, r2)
    ensures r2 == r
  {
    if e.id.Some? {
      AffordancesOverwrite(e, r.links, r.templates, r, r2);
    }
  }
}
