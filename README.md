# Tunai.id invoice client — a verified Dafny model

This project models the `Invoice` class of the Tunai.id PHP client. Merchants use it to fetch and create invoices on the Tunai.id payment API. Each request is authenticated with a Hawk Authorization header.

The class keeps three values fixed at construction:

- a Hawk id, which is base64 of `"api:" + key + ":" + secret`;
- the secret;
- the API root URL, by default `https://api.tunai.id/v1`.

It memoizes a Hawk credentials value `(secret, "sha256", id)` on first use. For every request it builds two option arrays:

- the options the Hawk signer signs;
- the options the Guzzle transport sends.

It routes three operations to fixed endpoints:

- `getByRef` sends `GET /invoices/by-ref/{ref}`;
- `getById` sends `GET /invoices/{id}`;
- `create` sends `POST /invoices` with a JSON body.

`getByRefOrCreate` fetches by the invoice's `refId`. On a 404, and only then, it creates the invoice.

Layout:

- `option.dfy` (module `Optional`): the optional value used for the memoized credentials and the decoder's result.
- `bytes.dfy` (module `Bytes`): the byte type and the UTF-8 bytes of a text.
- `base64.dfy` (module `Base64`): base64 as in section 4 of RFC 4648, with a strict decoder and round-trip proofs in both directions.
- `php.dfy` (module `Php`): PHP values and arrays, truthiness, the `$a[$k]` lookup, and conversion to string (used for `refId`).
- `options.dfy` (module `Options`): the Hawk options and the transport options as functions returning maps.
- `invoice.dfy` (module `Tunai`): the `Invoice` class, the transport class `HttpClient`, and the request each call sends.

Collaborators the class calls but does not define are parameters:

- The Hawk signer (`header()->fieldValue()` of the signed request), `json_encode` and `http_build_query` are the function fields of a `Library` value.
- The remote service is a `Server`. It is a function from the requests sent so far and the next request to a `Response`.
- The transport records every request it sends in `HttpClient.sent`. That record is how the contracts say "exactly one request" and "create is called once".

How the code behaves at points where a reader might expect otherwise, and what the model states:

- The caller's query is passed to the signer as Hawk `ext` (src/Invoice.php:120, 167, 194-197), so a non-empty query is part of what is signed. No façade call passes a query.
- The constructor does not check the key or the secret; any strings are accepted, empty ones included.
- Certificate verification is always switched off: `verify` is false in every transport option array.
- Whether a body and a JSON `Content-Type` are sent is decided by PHP truthiness of the payload. A payload of `"0"` gets no `body` option and no `Content-Type` header, though it is still passed as the body argument of `createRequest`.
- Lines 149-150 assign `Authorization` and `verify` a second time with the same values. They have no effect.

## Model

| member | source | states |
|---|---|---|
| `Tunai.HawkId` | src/Invoice.php:44 | the stored Hawk id is a base64 string that decodes to exactly the bytes of "api:", the key, ":" and the secret |
| `Tunai.IdTextBytes` | src/Invoice.php:44 | the bytes of `'api:' . $key . ':' . $secret` are the bytes 97 112 105 58, then the key's bytes, then 58, then the secret's bytes |
| `Base64.Encode` | src/Invoice.php:44 | base64_encode output has 4 characters for every started group of 3 input bytes, and '=' padding only in the last two positions |
| `Base64.DecodeEncode` | src/Invoice.php:44 | decoding the base64 encoding gives back the input bytes: base64_encode loses nothing |
| `Base64.EncodeDecode` | src/Invoice.php:44 | every string the strict decoder accepts is the encoding of what it decodes to, so encoding and decoding are mutually inverse |
| `Bytes.FromStringAppend` | src/Invoice.php:44 | the bytes of a concatenation are the bytes of its parts, concatenated |
| `Tunai.Invoice.constructor` | src/Invoice.php:42-49 | the key becomes the Hawk id of (key, secret); the secret and root URL are stored unchanged; no credentials yet; a fresh transport that has sent nothing |
| `Tunai.NewWithDefaultRoot` | src/Invoice.php:42 | with no root URL argument the client uses the production URL `https://api.tunai.id/v1` |
| `Tunai.Invoice.GetCredentials` | src/Invoice.php:201-213 | returns (secret, "sha256", stored Hawk id) and leaves it memoized; once memoized, a call changes nothing |
| `Tunai.Invoice.MakeHawkRequest` | src/Invoice.php:162-178 | memoizes the credentials and returns the signer's header for (credentials, URL, method, the Hawk options of payload, content type and ext) |
| `Options.HawkRequestOptions` | src/Invoice.php:186-199 | `payload` and `content_type` are present, equal to the inputs, if and only if both are truthy; `ext` is present, equal to http_build_query of ext, if and only if ext is non-empty; no other keys |
| `Options.HttpRequestOptions` | src/Invoice.php:136-160 | `verify` is false and `query` is the input query in every case; `body` is present, equal to the payload, if and only if the payload is truthy; the headers are `Authorization` (the auth argument) plus `Content-Type: application/json` if and only if the payload is truthy |
| `Tunai.Outgoing` | src/Invoice.php:112-131 | the request sent goes to rootUrl + path with the given method and body, has `exceptions` false, `verify` false, the caller's query, and an Authorization header signed over the same URL and method with the query as ext; a truthy payload adds the `body` option holding the payload and the header `Content-Type: application/json`, and otherwise Authorization is the only header |
| `Tunai.Invoice.MakeHttpRequest` | src/Invoice.php:104-134 | appends exactly one request, the `Outgoing` one, to the transport's record, and returns the server's response to it unchanged, whatever its status |
| `Tunai.HttpClient.Send` | src/Invoice.php:131-132 | the request is recorded after those already sent, and the response is the server's answer given that history |
| `Tunai.Invoice.GetByRef` | src/Invoice.php:58-62 | sends exactly one GET to rootUrl + "/invoices/by-ref/" + ref with an empty payload, and returns its response |
| `Tunai.Invoice.GetById` | src/Invoice.php:69-73 | sends exactly one GET to rootUrl + "/invoices/" + id with an empty payload, and returns its response |
| `Tunai.Invoice.Create` | src/Invoice.php:80-85 | sends exactly one POST to rootUrl + "/invoices" with payload json_encode(invoice) and content type application/json, and returns its response |
| `Tunai.FacadeSigning` | src/Invoice.php:58-85 | the GET routes sign an empty option set; create signs the JSON payload and its content type when the JSON is truthy; no façade call signs an ext |
| `Tunai.Invoice.GetByRefOrCreate` | src/Invoice.php:93-102 | first fetches by the invoice's refId; if that status is 404 it sends exactly one create and returns the create's response; otherwise it sends nothing more and returns the fetch response unchanged |
| `Php.ToBool` | src/Invoice.php:152 | PHP's conversion to boolean is false exactly for null, false, 0, "", "0" and the empty array |
| `Php.Truthy` | src/Invoice.php:189 | a string is truthy exactly when it has two or more characters, or one character other than '0' |
| `Php.ArrayTruthy` | src/Invoice.php:194 | an array is truthy exactly when it is non-empty |
| `Php.ToPhpString` | src/Invoice.php:60 | the `.` conversion of `$ref` is empty exactly for null, false and ""; a string is kept as is; an integer becomes its decimal form, never empty |
| `Tunai.GenerateCredentials` | src/Invoice.php:210-213 | the credentials take the secret as MAC key, the given algorithm (sha256 by default) and the stored Hawk id as id |
| `Tunai.RefId` | src/Invoice.php:95 | the reference is "" when the invoice has no refId entry, and otherwise the string form of a refId entry's value |
| `Base64.RfcTestVectors` | src/Invoice.php:44 | Encode meets the RFC 4648 test vectors: "f" is "Zg==", "fo" is "Zm8=", "foo" is "Zm9v", "foobar" is "Zm9vYmFy" |
| `Php.Get` | src/Invoice.php:95 | `$invoice['refId']` is the value stored under that key when there is one, and null when there is none |
| `Php.IntString` | src/Invoice.php:60 | an integer refId is written in decimal: a leading '-' exactly when negative, then a non-empty digit string without leading zeros that reads back as its magnitude |
| `Php.NatDigitsValue` | src/Invoice.php:60 | reading the decimal digits of a natural number back gives the number |

## Left out

- Hawk MAC computation, canonical string, nonce and timestamp generation live in the Dflydev Hawk library. The signer is the opaque `Library.hawkHeader` of credentials, URL, method and options. The model does not capture that nonces and timestamps are fresh for each request: two identical requests get identical headers in the model.
- Guzzle transport (client creation, `createRequest`, `send`, the response object) is I/O. It is the `HttpClient` record plus the `Server` function. Network failures, which Guzzle raises as exceptions even with `exceptions` false, are not modelled.
- `json_encode` and `http_build_query` are opaque string functions. `json_encode` returning `false` on failure is not modelled.
- `buildClient` and the `client` field it overwrites on every call have no observable logic of their own, so neither is modelled.
- The network effect of `verify => false` (TLS certificates go unchecked) is outside the model. Only the option's value is stated.
- PHP floats, objects and integer array keys are not modelled. `PhpArray` is an ordered list of entries. For a list with a repeated key, `Get` returns the first entry, which no real PHP array has.
- Tunai.Invoice.MakeHawkRequest: returns the signed request's Authorization header value instead of the request object, because the caller only reads that value (src/Invoice.php:126).
- Text is held as Dafny strings and turned into bytes as UTF-8 where `base64_encode` needs bytes. A PHP key or secret that is a byte string but not valid UTF-8 cannot be represented.
- Concurrent use of one client, and thread-safe memoization of the credentials, are outside the model. The model is sequential.
