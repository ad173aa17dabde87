/**
 * The stored records (src/model/mod.rs). `links` and `templates` are the transient
 * `_links`/`_templates` affordances; the rest is what the store persists.
 */
module Model {
  import opened Wrappers
  import opened Ints
  import opened Envelope

  datatype Event = Event(
    id: Option<string>,
    from: i64,
    to: Option<i64>,
    text: string,
    appName: Option<string>,
    sourceId: Option<string>,
    sourceName: Option<string>,
    links: Option<seq<Link>>,
    templates: Option<seq<Template>>)

  datatype Comment = Comment(
    id: Option<string>,
    eventId: string,
    userId: string,
    comment: string,
    timestamp: i64,
    links: Option<seq<Link>>,
    templates: Option<seq<Template>>)
}
