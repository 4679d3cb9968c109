/**
  What the gateway hands to and gets back from the HTTP session: requests, responses, the keyword
  parameters of a call, and a recording stand-in for the session itself.
*/
module Http {
  import opened Wrappers

  type Byte = b: int | 0 <= b < 256
  type Bytes = seq<Byte>

  /** The session method the gateway calls (`session.get`, `session.put`, ...). */
  datatype Verb = Get | Put | Post | Delete

  /** A value in the keyword-parameter bag of a session call. */
  datatype Param =
    | HeaderMap(headers: map<string, string>)   // the `headers` keyword
    | Data(content: Bytes)                       // the `data` keyword
    | Setting(value: string)                     // any other option: timeouts, TLS verification, streaming

  /** One call of the session: the verb, the final URL and the keyword parameters. */
  datatype Request = Request(verb: Verb, url: string, params: map<string, Param>)

  /** The session's reply: status code, raw body and the declared text encoding, if any. */
  datatype Response = Response(status: int, content: Bytes, encoding: Option<string>)

  /**
    The caller's query options object (pagination, filters); the gateway only asks it to rewrite a URL
    and does not interpret what it adds.
  */
  datatype RequestOptions = RequestOptions(applyQueryParams: string -> string)

  /**
    The HTTP session reduced to a recorder: every call is appended to `log`, and the reply is
    whatever `respond` gives for that request.
  */
  class Transport {
    var log: seq<Request>
    const respond: Request -> Response

    constructor (respond: Request -> Response)
      ensures log == [] && this.respond == respond
    {
      log := [];
      this.respond := respond;
    }

    method Send(req: Request) returns (resp: Response)
      modifies this
      ensures log == old(log) + [req]
      ensures resp == respond(req)
    {
      log := log + [req];
      resp := respond(req);
    }
  }

  /** A Python dict of keyword parameters, mutable and shared by reference. */
  class ParamDict {
    var entries: map<string, Param>

    constructor (entries: map<string, Param>)
      ensures this.entries == entries
    {
      this.entries := entries;
    }

    /** `dict.update(other)`: the entries of `other` overwrite equal keys. */
    method Update(other: map<string, Param>)
      modifies this
      ensures entries.Keys == old(entries).Keys + other.Keys
      ensures forall k :: k in other ==> entries[k] == other[k]
      ensures forall k :: k in old(entries) && k !in other ==> entries[k] == old(entries)[k]
    {
      entries := entries + other;
    }

    /** `dict[key] = value`. */
    method Set(key: string, value: Param)
      modifies this
      ensures entries == old(entries)[key := value]
    {
      entries := entries[key := value];
    }
  }
}
