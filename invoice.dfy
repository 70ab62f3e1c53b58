/**
 * The Tunai.id invoice client: a class holding the merchant's credentials,
 * the API root URL and an HTTP transport, with three invoice operations
 * (fetch by reference, fetch by id, create) and the fetch-or-create flow.
 *
 * The Hawk signer, json_encode and http_build_query are library code the
 * client calls but does not define; they are the function fields of a
 * `Library`. The remote service is a function from the requests sent so far
 * and the next request to its response.
 */
module Tunai {
  import opened Php
  import opened Options
  import opened Optional
  import Bytes
  import Base64

  /** The production root URL, used when the constructor is given none. */
  const TunaiUrl: string := "https://api.tunai.id/v1"

  const Sha256: string := "sha256"

  /** Hawk credentials in the library's argument order: MAC key, algorithm, id. */
  datatype Credentials = Credentials(macKey: string, algorithm: string, id: string)

  /** What the transport is asked to send: method, URL, header array, body, options. */
  datatype HttpRequest = HttpRequest(
    verb: string,
    url: string,
    headers: map<string, string>,
    body: string,
    options: map<string, OptionValue>)

  datatype Response = Response(status: int, body: string)

  /** The library routines the client calls. */
  datatype Library = Library(
    hawkHeader: (Credentials, string, string, map<string, string>) -> string,
    jsonEncode: PhpArray -> string,
    buildQuery: PhpArray -> string)

  /** The remote service: its answer to a request, given every request sent before it. */
  type Server = (seq<HttpRequest>, HttpRequest) -> Response

  /** The text whose base64 form is the Hawk id: "api:" + key + ":" + secret. */
  function IdText(key: string, secret: string): string {
    "api:" + key + ":" + secret
  }

  /** The bytes of "api:" and of ":". */
  lemma PunctuationBytes()
    ensures Bytes.FromString("api:") == [97, 112, 105, 58]
    ensures Bytes.FromString(":") == [58]
  {
    Bytes.AsciiBytes("api:");
    Bytes.AsciiBytes(":");
  }

  /** The bytes of the id text are those of its four parts, in order. */
  lemma IdTextBytes(key: string, secret: string)
    ensures Bytes.FromString(IdText(key, secret)) ==
      [97, 112, 105, 58] + Bytes.FromString(key) + [58] + Bytes.FromString(secret)
  {
    Bytes.FromStringAppend("api:" + key + ":", secret);
    Bytes.FromStringAppend("api:" + key, ":");
    Bytes.FromStringAppend("api:", key);
    PunctuationBytes();
  }

  /**
   * The Hawk id derived from the merchant's key and secret. It is a base64
   * string that decodes to the bytes of "api:", the key, ":" and the secret.
   */
  function HawkId(key: string, secret: string): (id: string)
    ensures Base64.Decode(id) ==
      Some([97, 112, 105, 58] + Bytes.FromString(key) + [58] + Bytes.FromString(secret))
  {
    var bytes := Bytes.FromString(IdText(key, secret));
    Base64.DecodeEncode(bytes);
    IdTextBytes(key, secret);
    Base64.Encode(bytes)
  }

  /** generateCredentials, with its default algorithm. */
  function GenerateCredentials(key: string, secret: string, algorithm: string := Sha256): (c: Credentials)
    ensures c.macKey == secret && c.algorithm == algorithm && c.id == key
  {
    Credentials(secret, algorithm, key)
  }

  /** The Hawk Authorization header value for a request (makeHawkRequest, then header()->fieldValue()). */
  function Authorization(lib: Library, creds: Credentials, url: string, verb: string,
                         payload: string, contentType: string, ext: PhpArray): string
  {
    lib.hawkHeader(creds, url, verb, HawkRequestOptions(payload, contentType, ext, lib.buildQuery))
  }

  /**
   * The request makeHttpRequest hands to the transport. The URL is the root URL
   * followed by the path; the caller's query is both the transport's query and
   * the ext the Hawk header signs; 'exceptions' is off, so a non-2xx status
   * comes back as a response and not as an exception.
   */
  function Outgoing(lib: Library, creds: Credentials, rootUrl: string, path: string, verb: string,
                    payload: string, contentType: string, query: PhpArray): (r: HttpRequest)
    ensures r.verb == verb && r.url == rootUrl + path && r.body == payload && r.headers == map[]
    ensures r.options.Keys ==
      {"verify", "query", "headers", "exceptions"} + (if Truthy(payload) then {"body"} else {})
    ensures r.options["exceptions"] == Flag(false)
    ensures r.options["verify"] == Flag(false)
    ensures r.options["query"] == Params(query)
    ensures Truthy(payload) ==> r.options["body"] == Text(payload)
    ensures r.options["headers"].Headers?
    ensures r.options["headers"].headers.Keys ==
      {"Authorization"} + (if Truthy(payload) then {"Content-Type"} else {})
    ensures Truthy(payload) ==> r.options["headers"].headers["Content-Type"] == JsonType
    ensures r.options["headers"].headers["Authorization"] ==
      Authorization(lib, creds, rootUrl + path, verb, payload, contentType, query)
  {
    var url := rootUrl + path;
    var auth := Authorization(lib, creds, url, verb, payload, contentType, query);
    var options := HttpRequestOptions(auth, payload, query);
    HttpRequest(verb, url, map[], payload, options["exceptions" := Flag(false)])
  }

  /** The (path, verb, payload, content type) each façade operation requests. */
  datatype Route = Route(path: string, verb: string, payload: string, contentType: string)

  function ByRefRoute(ref: string): Route {
    Route("/invoices/by-ref/" + ref, "GET", "", "")
  }

  function ByIdRoute(id: string): Route {
    Route("/invoices/" + id, "GET", "", "")
  }

  function CreateRoute(lib: Library, invoice: PhpArray): Route {
    Route("/invoices", "POST", lib.jsonEncode(invoice), JsonType)
  }

  /** The reference getByRefOrCreate looks up: `$invoice['refId']`, as a string. */
  function RefId(invoice: PhpArray): (ref: string)
    ensures !HasKey(invoice, "refId") ==> ref == ""
    ensures HasKey(invoice, "refId") ==>
      exists i | 0 <= i < |invoice| :: invoice[i].0 == "refId" && ref == ToPhpString(invoice[i].1)
  {
    ToPhpString(Get(invoice, "refId"))
  }

  /**
   * What the façade asks the signer to sign: the two GET routes sign an empty
   * option set; create signs its JSON payload and content type when the JSON
   * is truthy. No façade call passes a query, so none signs an ext.
   */
  lemma FacadeSigning(lib: Library, ref: string, id: string, invoice: PhpArray)
    ensures var r := ByRefRoute(ref); HawkRequestOptions(r.payload, r.contentType, [], lib.buildQuery) == map[]
    ensures var r := ByIdRoute(id); HawkRequestOptions(r.payload, r.contentType, [], lib.buildQuery) == map[]
    ensures var r := CreateRoute(lib, invoice);
      var signed := HawkRequestOptions(r.payload, r.contentType, [], lib.buildQuery);
      && "ext" !in signed
      && (Truthy(lib.jsonEncode(invoice)) ==>
            signed == map["payload" := lib.jsonEncode(invoice), "content_type" := JsonType])
      && (!Truthy(lib.jsonEncode(invoice)) ==> signed == map[])
  {
  }

  /** The Guzzle client: sends a request and records it. */
  class HttpClient {
    const server: Server
    /** Every request sent through this client, oldest first. */
    var sent: seq<HttpRequest>

    constructor (server: Server)
      ensures this.server == server && sent == []
    {
      this.server := server;
      sent := [];
    }

    method Send(request: HttpRequest) returns (response: Response)
      modifies this
      ensures sent == old(sent) + [request]
      ensures response == server(old(sent), request)
    {
      response := server(sent, request);
      sent := sent + [request];
    }
  }

  class Invoice {
    /** The Hawk id, base64 of "api:" + key + ":" + secret. */
    const key: string
    const secret: string
    const rootUrl: string
    const lib: Library
    const httpClient: HttpClient
    /** Memoized credentials; None until first needed. */
    var credentials: Option<Credentials>

    ghost predicate Valid()
      reads this
    {
      credentials.Some? ==> credentials.value == GenerateCredentials(key, secret)
    }

    /** The request makeHttpRequest sends for a route and query. */
    function Request(route: Route, query: PhpArray): HttpRequest {
      Outgoing(lib, GenerateCredentials(key, secret), rootUrl, route.path, route.verb,
               route.payload, route.contentType, query)
    }

    constructor (lib: Library, server: Server, key: string, secret: string, rootUrl: string := TunaiUrl)
      ensures Valid()
      ensures this.key == HawkId(key, secret)
      ensures this.secret == secret
      ensures this.rootUrl == rootUrl
      ensures this.lib == lib
      ensures credentials.None?
      ensures fresh(httpClient) && httpClient.server == server && httpClient.sent == []
    {
      this.key := HawkId(key, secret);
      this.secret := secret;
      this.rootUrl := rootUrl;
      this.lib := lib;
      httpClient := new HttpClient(server);
      credentials := None;
    }

    /** getCredentials: builds the credentials on first use and returns the stored value ever after. */
    method GetCredentials() returns (c: Credentials)
      requires Valid()
      modifies this`credentials
      ensures Valid()
      ensures c == Credentials(secret, Sha256, key)
      ensures credentials == Some(c)
      ensures old(credentials).Some? ==> credentials == old(credentials)
    {
      if credentials.None? {
        credentials := Some(GenerateCredentials(key, secret));
      }
      c := credentials.value;
    }

    /** makeHawkRequest, returning the signed request's Authorization header value. */
    method MakeHawkRequest(url: string, verb: string := "GET", payload: string := "",
                           contentType: string := "", ext: PhpArray := []) returns (header: string)
      requires Valid()
      modifies this`credentials
      ensures Valid() && credentials == Some(GenerateCredentials(key, secret))
      ensures header == Authorization(lib, GenerateCredentials(key, secret), url, verb, payload, contentType, ext)
    {
      var options := HawkRequestOptions(payload, contentType, ext, lib.buildQuery);
      var creds := GetCredentials();
      header := lib.hawkHeader(creds, url, verb, options);
    }

    /** makeHttpRequest: one signed request to rootUrl + path through the transport. */
    method MakeHttpRequest(path: string, verb: string := "GET", payload: string := "",
                           contentType: string := "", query: PhpArray := []) returns (res: Response)
      requires Valid()
      modifies this`credentials, httpClient
      ensures Valid() && credentials == Some(GenerateCredentials(key, secret))
      ensures var request := Request(Route(path, verb, payload, contentType), query);
        && httpClient.sent == old(httpClient.sent) + [request]
        && res == httpClient.server(old(httpClient.sent), request)
    {
      var url := rootUrl + path;
      var auth := MakeHawkRequest(url, verb, payload, contentType, query);
      var options := HttpRequestOptions(auth, payload, query);
      options := options["exceptions" := Flag(false)];
      res := httpClient.Send(HttpRequest(verb, url, map[], payload, options));
    }

    method GetByRef(ref: string) returns (res: Response)
      requires Valid()
      modifies this`credentials, httpClient
      ensures Valid() && credentials == Some(GenerateCredentials(key, secret))
      ensures httpClient.sent == old(httpClient.sent) + [Request(ByRefRoute(ref), [])]
      ensures res == httpClient.server(old(httpClient.sent), Request(ByRefRoute(ref), []))
    {
      res := MakeHttpRequest("/invoices/by-ref/" + ref);
    }

    method GetById(id: string) returns (res: Response)
      requires Valid()
      modifies this`credentials, httpClient
      ensures Valid() && credentials == Some(GenerateCredentials(key, secret))
      ensures httpClient.sent == old(httpClient.sent) + [Request(ByIdRoute(id), [])]
      ensures res == httpClient.server(old(httpClient.sent), Request(ByIdRoute(id), []))
    {
      res := MakeHttpRequest("/invoices/" + id);
    }

    method Create(invoice: PhpArray) returns (res: Response)
      requires Valid()
      modifies this`credentials, httpClient
      ensures Valid() && credentials == Some(GenerateCredentials(key, secret))
      ensures httpClient.sent == old(httpClient.sent) + [Request(CreateRoute(lib, invoice), [])]
      ensures res == httpClient.server(old(httpClient.sent), Request(CreateRoute(lib, invoice), []))
    {
      var json := lib.jsonEncode(invoice);
      res := MakeHttpRequest("/invoices", "POST", json, JsonType);
    }

    /**
     * getByRefOrCreate: fetch by the invoice's refId; on 404, and only then,
     * create the invoice once and answer with the creation's response.
     */
    method GetByRefOrCreate(invoice: PhpArray) returns (res: Response)
      requires Valid()
      modifies this`credentials, httpClient
      ensures Valid() && credentials == Some(GenerateCredentials(key, secret))
      ensures
        var fetch := Request(ByRefRoute(RefId(invoice)), []);
        var fetched := httpClient.server(old(httpClient.sent), fetch);
        var create := Request(CreateRoute(lib, invoice), []);
        if fetched.status == 404 then
          && httpClient.sent == old(httpClient.sent) + [fetch, create]
          && res == httpClient.server(old(httpClient.sent) + [fetch], create)
        else
          && httpClient.sent == old(httpClient.sent) + [fetch]
          && res == fetched
    {
      res := GetByRef(RefId(invoice));
      if res.status == 404 {
        res := Create(invoice);
        return;
      }
    }
  }

  /** Without a root URL argument the client talks to the production URL. */
  method NewWithDefaultRoot(lib: Library, server: Server, key: string, secret: string) returns (client: Invoice)
    ensures client.Valid() && fresh(client)
    ensures client.rootUrl == TunaiUrl && client.key == HawkId(key, secret) && client.secret == secret
  {
    client := new Invoice(lib, server, key, secret);
  }
}
