/**
 * The two option arrays the client builds for its collaborators: the options
 * handed to the Hawk signer and the options handed to the HTTP transport.
 * Each is a fresh array filled by conditional assignments, so each is a
 * function returning a map; what matters is which keys exist and what they hold.
 */
module Options {
  import opened Php

  /** A value in the transport's option array. */
  datatype OptionValue =
    | Flag(flag: bool)
    | Text(text: string)
    | Params(params: PhpArray)
    | Headers(headers: map<string, string>)

  const JsonType: string := "application/json"

  /**
   * generateRequestOptions: the Hawk options. The payload and its content type
   * go in together, and only when both are truthy; ext goes in, rendered by
   * http_build_query (`buildQuery`), only when the ext array is non-empty.
   */
  function HawkRequestOptions(payload: string, contentType: string, ext: PhpArray,
                              buildQuery: PhpArray -> string): (r: map<string, string>)
    ensures r.Keys <= {"payload", "content_type", "ext"}
    ensures "payload" in r <==> Truthy(payload) && Truthy(contentType)
    ensures "content_type" in r <==> Truthy(payload) && Truthy(contentType)
    ensures "payload" in r ==> r["payload"] == payload && r["content_type"] == contentType
    ensures "ext" in r <==> ext != []
    ensures "ext" in r ==> r["ext"] == buildQuery(ext)
  {
    var signed := if Truthy(payload) && Truthy(contentType)
      then map["payload" := payload, "content_type" := contentType]
      else map[];
    if ArrayTruthy(ext) then signed["ext" := buildQuery(ext)] else signed
  }

  /** The header set the transport sends for a payload. */
  function RequestHeaders(auth: string, payload: string): map<string, string> {
    var headers := map["Authorization" := auth];
    if Truthy(payload) then headers["Content-Type" := JsonType] else headers
  }

  /**
   * generateHttpRequestOptions: certificate verification off, the query passed
   * through, the Authorization header always; a truthy payload adds the body
   * and a JSON Content-Type header.
   */
  function HttpRequestOptions(auth: string, payload: string, query: PhpArray): (r: map<string, OptionValue>)
    ensures r.Keys == {"verify", "query", "headers"} + (if Truthy(payload) then {"body"} else {})
    ensures r["verify"] == Flag(false)
    ensures r["query"] == Params(query)
    ensures Truthy(payload) ==> r["body"] == Text(payload)
    ensures r["headers"].Headers?
    ensures var h := r["headers"].headers;
      && h.Keys == {"Authorization"} + (if Truthy(payload) then {"Content-Type"} else {})
      && h["Authorization"] == auth
      && (Truthy(payload) ==> h["Content-Type"] == JsonType)
  {
    var options := map["verify" := Flag(false), "query" := Params(query)];
    var options := if Truthy(payload) then options["body" := Text(payload)] else options;
    options["headers" := Headers(RequestHeaders(auth, payload))]
  }
}
