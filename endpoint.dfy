/**
  The request gateway shared by every resource endpoint: header construction, the merge of the
  caller's keyword parameters with the session-wide options, a single dispatch through the session,
  the status check, the verb-specific entry points and the minimum-version gate.
*/
module Gateway {
  import opened Wrappers
  import opened Http
  import opened Versions

  /** The statuses a response may carry and still be returned to the caller. */
  const SuccessCodes: seq<int> := [200, 201, 204]

  const AuthHeader := "x-tableau-auth"
  const ContentTypeHeader := "content-type"
  const HeadersKey := "headers"
  const DataKey := "data"
  const DefaultContentType := "text/xml"

  /** The errors this layer raises; the parsing of a server error body is not modelled. */
  datatype Error =
    | ServerResponseError(body: Bytes)
    | EndpointUnavailableError(message: string)
    | MissingRequiredFieldError(message: string)

  /** The headers every request carries: the auth token and the content type, each when given. */
  function CommonHeaders(authToken: Option<string>, contentType: Option<string>): (h: map<string, string>)
    ensures AuthHeader in h <==> authToken.Some?
    ensures authToken.Some? ==> h[AuthHeader] == authToken.value
    ensures ContentTypeHeader in h <==> contentType.Some?
    ensures contentType.Some? ==> h[ContentTypeHeader] == contentType.value
    ensures h.Keys <= {AuthHeader, ContentTypeHeader}
    ensures authToken.None? && contentType.None? ==> h == map[]
  {
    var withAuth := if authToken.Some? then map[AuthHeader := authToken.value] else map[];
    if contentType.Some? then withAuth[ContentTypeHeader := contentType.value] else withAuth
  }

  /**
    The keyword parameters of the session call: the caller's, overlaid by the session-wide options,
    then `headers` forced to the computed headers and `data` set when there is content.
  */
  function MergeParameters(caller: map<string, Param>, httpOptions: map<string, Param>,
                           headers: map<string, string>, content: Option<Bytes>): (m: map<string, Param>)
    ensures m.Keys == caller.Keys + httpOptions.Keys + {HeadersKey} + (if content.Some? then {DataKey} else {})
    ensures m[HeadersKey] == HeaderMap(headers)
    ensures content.Some? ==> m[DataKey] == Data(content.value)
    ensures forall k :: k in httpOptions && k != HeadersKey && (content.None? || k != DataKey) ==>
      m[k] == httpOptions[k]
    ensures forall k :: k in caller && k !in httpOptions && k != HeadersKey && (content.None? || k != DataKey) ==>
      m[k] == caller[k]
  {
    var withHeaders := (caller + httpOptions)[HeadersKey := HeaderMap(headers)];
    if content.Some? then withHeaders[DataKey := Data(content.value)] else withHeaders
  }

  /** The URL after the caller's query options, if any, have added their parameters. */
  function EffectiveUrl(url: string, requestObject: Option<RequestOptions>): string {
    if requestObject.Some? then requestObject.value.applyQueryParams(url) else url
  }

  /** The one session call a dispatch makes. */
  function BuildRequest(verb: Verb, url: string, content: Option<Bytes>, requestObject: Option<RequestOptions>,
                        authToken: Option<string>, contentType: Option<string>,
                        caller: map<string, Param>, httpOptions: map<string, Param>): Request
  {
    Request(verb, EffectiveUrl(url, requestObject),
            MergeParameters(caller, httpOptions, CommonHeaders(authToken, contentType), content))
  }

  /** A response passes through unchanged when its status is a success code; otherwise it raises. */
  function CheckStatus(resp: Response): (r: Result<Response, Error>)
    ensures r.Success? <==> resp.status in SuccessCodes
    ensures r.Success? ==> r.value == resp
    ensures r.Failure? ==> r.error == ServerResponseError(resp.content)
  {
    if resp.status in SuccessCodes then Success(resp) else Failure(ServerResponseError(resp.content))
  }

  function UnavailableMessage(serverVersion: string, minimum: string): string {
    "This endpoint is not available in API version " + serverVersion + ". Requires " + minimum
  }

  /**
    The gate's decision: a server older than the declared minimum is refused. An empty version string
    is outside the gate's domain: `LooseVersion("")` is never parsed and the comparison itself fails.
  */
  function CheckVersion(serverVersion: string, minimum: string): (o: Outcome<Error>)
    requires IsDottedNumeric(serverVersion) && IsDottedNumeric(minimum)
    requires serverVersion != "" && minimum != ""
    ensures o.Fail? <==> Less(Parse(serverVersion), Parse(minimum))
    ensures o.Fail? ==> o.error == EndpointUnavailableError(UnavailableMessage(serverVersion, minimum))
  {
    if Less(Parse(serverVersion), Parse(minimum)) then
      Fail(EndpointUnavailableError(UnavailableMessage(serverVersion, minimum)))
    else
      Pass
  }

  /** The in-place steps of a dispatch on the parameter dict: overlay the options, force the headers, add the data. */
  method FillParameters(dict: ParamDict, httpOptions: map<string, Param>, headers: map<string, string>,
                        content: Option<Bytes>)
    modifies dict
    ensures dict.entries == MergeParameters(old(dict.entries), httpOptions, headers, content)
  {
    dict.Update(httpOptions);
    dict.Set(HeadersKey, HeaderMap(headers));
    if content.Some? {
      dict.Set(DataKey, Data(content.value));
    }
  }

  /** A "2.9" server is refused an operation that needs "2.10"; a "2.10" server passes a "2.3" gate. */
  lemma GateComparesNumerically()
    ensures CheckVersion("2.9", "2.10") ==
            Fail(EndpointUnavailableError("This endpoint is not available in API version 2.9. Requires 2.10"))
    ensures CheckVersion("2.10", "2.3") == Pass
  {
    NumericComparison();
    assert UnavailableMessage("2.9", "2.10") == "This endpoint is not available in API version 2.9. Requires 2.10";
  }

  /** The signed-in client state the gateway reads on every call. */
  class Server {
    var baseUrl: string
    var siteId: string
    var authToken: Option<string>
    var version: string
    var httpOptions: map<string, Param>
    const session: Transport

    constructor (baseUrl: string, siteId: string, authToken: Option<string>, version: string,
                 httpOptions: map<string, Param>, session: Transport)
      ensures this.baseUrl == baseUrl && this.siteId == siteId && this.authToken == authToken
      ensures this.version == version && this.httpOptions == httpOptions && this.session == session
    {
      this.baseUrl := baseUrl;
      this.siteId := siteId;
      this.authToken := authToken;
      this.version := version;
      this.httpOptions := httpOptions;
      this.session := session;
    }
  }

  class Endpoint {
    const server: Server

    constructor (server: Server)
      ensures this.server == server
    {
      this.server := server;
    }

    /**
      Dispatch one request. A non-empty caller dict is the object that gets updated in place (an empty
      one is falsy in Python and is replaced by a fresh dict); the session is called exactly once.
    */
    method MakeRequest(verb: Verb, url: string, content: Option<Bytes> := None,
                       requestObject: Option<RequestOptions> := None, authToken: Option<string> := None,
                       contentType: Option<string> := None, parameters: ParamDict? := null)
      returns (r: Result<Response, Error>)
      modifies server.session, parameters
      ensures var req := BuildRequest(verb, url, content, requestObject, authToken, contentType,
                                      if parameters == null then map[] else old(parameters.entries),
                                      server.httpOptions);
              && server.session.log == old(server.session.log) + [req]
              && r == CheckStatus(server.session.respond(req))
              && (parameters != null && old(parameters.entries) != map[] ==> parameters.entries == req.params)
      ensures parameters != null && old(parameters.entries) == map[] ==> parameters.entries == map[]
    {
      ghost var caller := if parameters == null then map[] else parameters.entries;
      var target := url;
      if requestObject.Some? {
        target := requestObject.value.applyQueryParams(url);
      }
      var dict: ParamDict;
      if parameters != null && parameters.entries != map[] {
        dict := parameters;
      } else {
        dict := new ParamDict(map[]);
      }
      assert dict.entries == caller;
      FillParameters(dict, server.httpOptions, CommonHeaders(authToken, contentType), content);
      var resp := server.session.Send(Request(verb, target, dict.entries));
      r := CheckStatus(resp);
    }

    /** GET with neither an auth header nor a content type: for calls made before sign-in. */
    method GetUnauthenticatedRequest(url: string, requestObject: Option<RequestOptions> := None)
      returns (r: Result<Response, Error>)
      modifies server.session
      ensures var req := BuildRequest(Get, url, None, requestObject, None, None, map[], server.httpOptions);
              && server.session.log == old(server.session.log) + [req]
              && r == CheckStatus(server.session.respond(req))
              && req.params[HeadersKey] == HeaderMap(map[])
    {
      r := MakeRequest(Get, url, requestObject := requestObject);
    }

    /** GET carrying the session's auth token and no content type. */
    method GetRequest(url: string, requestObject: Option<RequestOptions> := None, parameters: ParamDict? := null)
      returns (r: Result<Response, Error>)
      modifies server.session, parameters
      ensures var req := BuildRequest(Get, url, None, requestObject, server.authToken, None,
                                      if parameters == null then map[] else old(parameters.entries),
                                      server.httpOptions);
              && server.session.log == old(server.session.log) + [req]
              && r == CheckStatus(server.session.respond(req))
              && req.params[HeadersKey] == HeaderMap(CommonHeaders(server.authToken, None))
              && (parameters != null && old(parameters.entries) != map[] ==> parameters.entries == req.params)
      ensures parameters != null && old(parameters.entries) == map[] ==> parameters.entries == map[]
    {
      r := MakeRequest(Get, url, requestObject := requestObject, authToken := server.authToken,
                       parameters := parameters);
    }

    /** DELETE carrying the auth token; only success or the error reaches the caller, never a body. */
    method DeleteRequest(url: string) returns (o: Outcome<Error>)
      modifies server.session
      ensures var req := BuildRequest(Delete, url, None, None, server.authToken, None, map[], server.httpOptions);
              var resp := server.session.respond(req);
              && server.session.log == old(server.session.log) + [req]
              && (o.Pass? <==> resp.status in SuccessCodes)
              && (o.Fail? ==> o.error == ServerResponseError(resp.content))
              && req.params[HeadersKey] == HeaderMap(CommonHeaders(server.authToken, None))
    {
      var r := MakeRequest(Delete, url, authToken := server.authToken);
      if r.Failure? {
        o := Fail(r.error);
      } else {
        o := Pass;
      }
    }

    /** PUT of a serialized body with the auth token and a content type, "text/xml" unless given. */
    method PutRequest(url: string, xmlRequest: Bytes, contentType: string := DefaultContentType)
      returns (r: Result<Response, Error>)
      modifies server.session
      ensures var req := BuildRequest(Put, url, Some(xmlRequest), None, server.authToken, Some(contentType),
                                      map[], server.httpOptions);
              && server.session.log == old(server.session.log) + [req]
              && r == CheckStatus(server.session.respond(req))
              && req.params[HeadersKey] == HeaderMap(CommonHeaders(server.authToken, Some(contentType)))
              && req.params[DataKey] == Data(xmlRequest)
    {
      r := MakeRequest(Put, url, content := Some(xmlRequest), authToken := server.authToken,
                       contentType := Some(contentType));
    }

    /** POST of a serialized body with the auth token and a content type, "text/xml" unless given. */
    method PostRequest(url: string, xmlRequest: Bytes, contentType: string := DefaultContentType)
      returns (r: Result<Response, Error>)
      modifies server.session
      ensures var req := BuildRequest(Post, url, Some(xmlRequest), None, server.authToken, Some(contentType),
                                      map[], server.httpOptions);
              && server.session.log == old(server.session.log) + [req]
              && r == CheckStatus(server.session.respond(req))
              && req.params[HeadersKey] == HeaderMap(CommonHeaders(server.authToken, Some(contentType)))
              && req.params[DataKey] == Data(xmlRequest)
    {
      r := MakeRequest(Post, url, content := Some(xmlRequest), authToken := server.authToken,
                       contentType := Some(contentType));
    }

    /**
      An operation declared with a minimum server version: refused when the connected server is
      older, otherwise run on its arguments with its result returned as is.
    */
    function Api<A, R>(minimum: string, func: A -> R, args: A): (r: Result<R, Error>)
      reads server
      requires IsDottedNumeric(server.version) && IsDottedNumeric(minimum)
      requires server.version != "" && minimum != ""
      ensures r.Failure? <==> Less(Parse(server.version), Parse(minimum))
      ensures r.Failure? ==> r.error == EndpointUnavailableError(UnavailableMessage(server.version, minimum))
      ensures r.Success? ==> r.value == func(args)
    {
      var gate := CheckVersion(server.version, minimum);
      if gate.Fail? then Failure(gate.error) else Success(func(args))
    }
  }
}
