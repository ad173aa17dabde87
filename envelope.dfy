/**
 * The uniform response shape of the service (src/envelope/mod.rs): a status, either a
 * payload or an error, reserved pagination fields, and the hypermedia links and
 * action templates. The JSON payload type is left abstract as the parameter `J`.
 */
module Envelope {
  import opened Wrappers
  import opened Ints

  datatype Status = OK | Error

  /** The body of a failed response. */
  datatype Error = ErrorInfo(code: i32, description: string)

  /** A hypermedia link: relation name and target. */
  datatype Link = Link(key: string, href: string)

  datatype MethodType = GET | POST | PATCH | DELETE

  /** A described follow-up operation; `target` names the link it applies to. */
  datatype Template = Template(
    key: string,
    httpMethod: MethodType,
    properties: Option<seq<Property>>,
    target: Option<string>,
    title: Option<string>)

  /** One input field of a template's form. */
  datatype Property = Property(
    name: string,
    prompt: Option<string>,
    readOnly: bool,
    required: bool,
    templated: Option<bool>,
    value: Option<string>)

  datatype Envelope<J> = Envelope(
    status: Status,
    data: Option<J>,
    error: Option<Error>,
    pageNumber: Option<i32>,
    nextPage: Option<string>,
    totalPages: Option<i32>,
    links: Option<seq<Link>>,
    templates: Option<seq<Template>>)

  /** Payload and error are mutually exclusive, and the status says which one is present. */
  predicate WellFormed<J>(env: Envelope<J>) {
    && (env.data.None? <==> env.status.Error?)
    && (env.error.None? <==> env.status.OK?)
  }

  /** The pagination fields are reserved and never filled in. */
  predicate Unpaged<J>(env: Envelope<J>) {
    env.pageNumber.None? && env.nextPage.None? && env.totalPages.None?
  }

  /** `error(code, description)`: a failed response carrying only the error. */
  function MakeError<J>(code: i32, description: string): (env: Envelope<J>)
    ensures WellFormed(env) && env.status.Error? && Unpaged(env)
    ensures env.error == Some(ErrorInfo(code, description))
    ensures env.links.None? && env.templates.None?
  {
    Envelope(Status.Error, None, Some(ErrorInfo(code, description)), None, None, None, None, None)
  }

  /** `success(data, links, templates)`: a successful response; links and templates are kept as given. */
  function MakeSuccess<J>(data: J, links: Option<seq<Link>>, templates: Option<seq<Template>>): (env: Envelope<J>)
    ensures WellFormed(env) && env.status.OK? && Unpaged(env)
    ensures env.data == Some(data)
    ensures env.links == links && env.templates == templates
  {
    Envelope(OK, Some(data), None, None, None, None, links, templates)
  }

  /** A well-formed envelope carries exactly one of payload and error. */
  lemma ExactlyOneOfDataAndError<J>(env: Envelope<J>)
    requires WellFormed(env)
    ensures env.data.Some? != env.error.Some?
  {
  }

  /**
   * The error constructor is the only way to get an unpaged, link-free failure:
   * every such envelope is `MakeError` of the error it carries.
   */
  lemma ErrorEnvelopeIsCanonical<J>(env: Envelope<J>)
    requires WellFormed(env) && env.status.Error? && Unpaged(env)
    requires env.links.None? && env.templates.None?
    ensures env == MakeError(env.error.value.code, env.error.value.description)
  {
  }

  /** Every unpaged success is `MakeSuccess` of its own payload, links and templates. */
  lemma SuccessEnvelopeIsCanonical<J>(env: Envelope<J>)
    requires WellFormed(env) && env.status.OK? && Unpaged(env)
    ensures env == MakeSuccess(env.data.value, env.links, env.templates)
  {
  }
}
