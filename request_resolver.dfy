/** Extracting the HTTP request from an execution context by application
    type (src/services/recaptcha-request.resolver.ts). */
module RequestResolver {
  import opened Core
  import opened Interfaces
  import opened Exceptions

  /** `ApplicationType`, plus any other value a caller may pass. */
  datatype ApplicationType = Rest | GraphQL | OtherType(name: string)

  /** The GraphQL context chain `req.connection._httpMessage.req`; every
      link may be missing. */
  datatype HttpMessage = HttpMessage(req: Option<HttpRequest>)
  datatype Connection = Connection(httpMessage: Option<HttpMessage>)
  datatype GqlRequest = GqlRequest(connection: Option<Connection>)
  datatype GqlContext = GqlContext(req: Option<GqlRequest>)

  /** What the context exposes: the HTTP request of a REST call and the
      GraphQL context of a GraphQL one. */
  datatype ExecutionContext = ExecutionContext(httpRequest: HttpRequest, gqlContext: GqlContext)

  /** Every link of the GraphQL chain is present. */
  predicate ChainComplete(ctx: GqlContext) {
    && ctx.req.Some?
    && ctx.req.value.connection.Some?
    && ctx.req.value.connection.value.httpMessage.Some?
    && ctx.req.value.connection.value.httpMessage.value.req.Some?
  }

  /** The optional chain `getContext().req?.connection?._httpMessage?.req`. */
  function GraphQLRequest(ctx: GqlContext): (r: Option<HttpRequest>)
    ensures r.Some? <==> ChainComplete(ctx)
    ensures r.Some? ==> r.value == ctx.req.value.connection.value.httpMessage.value.req.value
  {
    match ctx.req
    case None => None
    case Some(gqlRequest) =>
      match gqlRequest.connection
      case None => None
      case Some(connection) =>
        match connection.httpMessage
        case None => None
        case Some(message) => message.req
  }

  /** The chain that carries `request`. */
  function WrapRequest(request: HttpRequest): GqlContext {
    GqlContext(Some(GqlRequest(Some(Connection(Some(HttpMessage(Some(request))))))))
  }

  const UnsupportedPrefix := "Unsupported request type '"
  const UnsupportedSuffix := "'."

  function UnsupportedMessage(name: string): string {
    UnsupportedPrefix + name + UnsupportedSuffix
  }

  /** `resolve(context, type)` */
  function Resolve(context: ExecutionContext, appType: ApplicationType): (r: Completion<Option<HttpRequest>>)
    ensures appType.Rest? ==> r == Returns(Some(context.httpRequest))
    ensures appType.GraphQL? ==> r.Returns? && (r.value.Some? <==> ChainComplete(context.gqlContext))
    ensures appType.GraphQL? ==> r == Returns(GraphQLRequest(context.gqlContext))
    ensures appType.OtherType? ==> r == Throws(PlainError(UnsupportedMessage(appType.name)))
  {
    match appType
    case Rest => Returns(Some(context.httpRequest))
    case GraphQL => Returns(GraphQLRequest(context.gqlContext))
    case OtherType(name) => Throws(PlainError(UnsupportedMessage(name)))
  }

  /** A request placed in a complete GraphQL chain is the one resolved,
      whatever the REST side holds. */
  lemma GraphQLRoundTrip(httpRequest: HttpRequest, request: HttpRequest)
    ensures Resolve(ExecutionContext(httpRequest, WrapRequest(request)), GraphQL) == Returns(Some(request))
  {
  }

  /** A missing link anywhere in the chain resolves to undefined. */
  lemma GraphQLMissingLink(context: ExecutionContext)
    requires !ChainComplete(context.gqlContext)
    ensures Resolve(context, GraphQL) == Returns(None)
  {
  }

  /** The failure message names the type, which can be read back from it. */
  lemma UnsupportedMessageNamesType(name: string)
    ensures var m := UnsupportedMessage(name);
      && |m| == |UnsupportedPrefix| + |name| + |UnsupportedSuffix|
      && m[..|UnsupportedPrefix|] == UnsupportedPrefix
      && m[|UnsupportedPrefix|..|m| - |UnsupportedSuffix|] == name
      && m[|m| - |UnsupportedSuffix|..] == UnsupportedSuffix
      && OccursAt(m, name, |UnsupportedPrefix|)
  {
    var m := UnsupportedMessage(name);
    assert m[|UnsupportedPrefix|..|m| - |UnsupportedSuffix|] == name;
    assert m[..|UnsupportedPrefix|] == UnsupportedPrefix;
  }
}
