/** The transport core of the client library (mailtrap/mailtrap.go): the
    client record with its two API bases, request construction with the
    standard headers, classification of non-2xx replies, decoding of a reply
    into the caller's destination, and the composition of these that every
    resource service performs.

    Go strings and byte slices are both modelled as `string`, one char per
    byte, so Go's `len` is `|s|` and `string(data)` is the identity.
    encoding/json and the HTTP round trip are not modelled: they are the
    parameters `Json` and `server` below. */
module Transport {
  import opened Common

  /** Bytes of a request or response body. */
  type Bytes = string

  const Https := "https"
  /** Host of testingAPIURL, "https://mailtrap.io/". */
  const TestingHost := "mailtrap.io"
  /** Host of sendingAPIURL, "https://send.api.mailtrap.io/". */
  const SendingHost := "send.api.mailtrap.io"
  const ApiSuffix := "api"
  const DefaultAccept := "application/json"
  const UndefinedResponseType := "decode() undefined response type"

  datatype HttpMethod = GET | HEAD | OPTIONS | POST | PUT | PATCH | DELETE {
    /** The methods for which NewRequest attaches no body. */
    predicate Bodiless() { GET? || HEAD? || OPTIONS? }
  }

  datatype Url = Url(scheme: string, host: string, path: string)

  /** An http.Request as far as the library sets it up: `body` is None when
      no body is attached, and Some(bytes) for a (possibly empty) buffer. */
  datatype Request = Request(verb: HttpMethod, url: Url, body: Option<Bytes>, header: map<string, string>)

  /** A reply as the HTTP client hands it over: the status code and the
      whole body. */
  datatype HttpResponse = HttpResponse(status: int, body: Bytes)

  /** ErrorResponse of mailtrap/errors.go. */
  datatype ErrorResponse = ErrorResponse(response: HttpResponse, message: string, errors: seq<string>)

  datatype Error =
    | Plain(message: string)          // errors.New / fmt.Errorf
    | Api(details: ErrorResponse)     // the *ErrorResponse of checkResponse
    | EncodeFailed                    // the JSON encoder's error
    | DecodeFailed                    // the JSON decoder's error
    | TransportFailed(cause: string)  // the error of http.Client.Do

  /** What json.Unmarshal leaves in the message and errors fields of an
      ErrorResponse, and whether it reported an error (it may have filled
      some fields before failing). */
  datatype ErrorFields = ErrorFields(message: string, errors: seq<string>, ok: bool)

  /** encoding/json, for payloads of type P and decode targets of shape S:
      the encoder's output (None when it fails), whether the decoder accepts
      a body for a target of a given shape, and the unmarshalling of an
      error body. */
  datatype Json<!P, !S> = Json(
    encode: P -> Option<Bytes>,
    decodes: (S, Bytes) -> bool,
    unmarshalError: Bytes -> ErrorFields)

  /** The `v interface{}` handed to Do: nil, a *string, or a pointer to a
      value of some shape that is filled by JSON decoding. */
  datatype Destination<S> = Discard | RawString | Typed(shape: S)

  /** What ends up in the destination: nothing (nil), raw text, or the value
      the decoder made of a body for a target of a shape. */
  datatype Value<S> = Nil | Text(text: string) | Decoded(shape: S, source: Bytes)

  /** The result of the HTTP round trip, which the model takes as given. */
  datatype Transmission = Failed(cause: string) | Delivered(response: HttpResponse)

  /** What a call gives back: the value, the *Response (None for nil) and
      the error (None for nil). */
  datatype Outcome<S> = Outcome(value: Value<S>, response: Option<HttpResponse>, err: Option<Error>)

  /** What a service method hands to the transport: the method, the path
      below the base, the payload (None for a nil body), the Accept header
      that replaces the default (messages' body endpoints) and the
      destination. */
  datatype Call<P, S> = Call(
    verb: HttpMethod, path: string, payload: Option<P>,
    accept: Option<string>, dest: Destination<S>)

  /** Section 15.3 of RFC 9110: the 2xx class means success. */
  predicate Successful(status: int) { 200 <= status <= 299 }

  /** http.Header.Get: the value, or "" when the key is absent. */
  function HeaderGet(h: map<string, string>, key: string): string {
    if key in h then h[key] else ""
  }

  /** The headers NewRequest sets, in the order it sets them. */
  function StandardHeaders(apiKey: string, userAgent: string, hasPayload: bool): (h: map<string, string>)
    ensures h.Keys == {"Accept", "User-Agent", "Authorization"} + (if hasPayload then {"Content-Type"} else {})
    ensures h["Accept"] == DefaultAccept && h["User-Agent"] == userAgent
    ensures h["Authorization"] == "Bearer " + apiKey
    ensures hasPayload ==> h["Content-Type"] == "application/json"
  {
    var h: map<string, string> := if hasPayload then map["Content-Type" := "application/json"] else map[];
    h["Accept" := DefaultAccept]["User-Agent" := userAgent]["Authorization" := "Bearer " + apiKey]
  }

  /** The request NewRequest builds for `url`, whose path already is the
      joined base path and resource path. */
  function RequestTo<P>(encode: P -> Option<Bytes>, apiKey: string, userAgent: string,
                        url: Url, m: HttpMethod, payload: Option<P>): (r: Result<Request, Error>)
    ensures r.Failure? <==> !m.Bodiless() && payload.Some? && encode(payload.value).None?
    ensures r.Failure? ==> r.error == EncodeFailed
    ensures r.Success? ==> r.value.verb == m && r.value.url == url
    ensures r.Success? ==> (r.value.body.None? <==> m.Bodiless())
    ensures r.Success? && !m.Bodiless() ==> r.value.body == if payload.None? then Some("") else encode(payload.value)
    ensures r.Success? ==> r.value.header == StandardHeaders(apiKey, userAgent, payload.Some?)
    ensures r.Success? ==> ("Content-Type" in r.value.header <==> payload.Some?)
  {
    if !m.Bodiless() && payload.Some? && encode(payload.value).None? then Failure(EncodeFailed)
    else
      var body :=
        if m.Bodiless() then None
        else if payload.None? then Some("")
        else Some(encode(payload.value).value);
      Success(Request(m, url, body, StandardHeaders(apiKey, userAgent, payload.Some?)))
  }

  /** checkResponse's verdict: no error for a 2xx reply; otherwise an
      ErrorResponse that keeps the reply, filled from the body as JSON, with
      the raw body as message when that JSON does not parse. */
  function Classify(unmarshal: Bytes -> ErrorFields, r: HttpResponse): (e: Option<ErrorResponse>)
    ensures e.None? <==> Successful(r.status)
    ensures e.Some? ==> e.value.response == r
    ensures e.Some? && r.body == "" ==> e.value.message == "" && e.value.errors == []
    ensures e.Some? && r.body != "" && !unmarshal(r.body).ok ==> e.value.message == r.body
    ensures e.Some? && r.body != "" && unmarshal(r.body).ok ==> e.value.message == unmarshal(r.body).message
    ensures e.Some? && r.body != "" ==> e.value.errors == unmarshal(r.body).errors
  {
    if Successful(r.status) then None
    else if |r.body| > 0 then
      var u := unmarshal(r.body);
      Some(ErrorResponse(r, if u.ok then u.message else r.body, u.errors))
    else Some(ErrorResponse(r, "", []))
  }

  /** decode(v, body, accept): what is written into the destination and the
      error returned. */
  function Decoding<S>(decodes: (S, Bytes) -> bool, dest: Destination<S>,
                       body: Option<Bytes>, accept: string): (d: (Value<S>, Option<Error>))
    ensures body.None? ==> d == (Nil, None)
    ensures body.Some? && dest.RawString? ==> d == (Text(body.value), None)
    ensures d.0.Text? ==> dest.RawString? && body == Some(d.0.text)
    ensures d.0.Decoded? <==> body.Some? && dest.Typed? && accept == DefaultAccept && decodes(dest.shape, body.value)
    ensures d.0.Decoded? ==> d.0 == Decoded(dest.shape, body.value) && d.1.None?
    ensures d.1.Some? ==> d.0 == Nil
    ensures body.Some? && dest.Typed? && accept == DefaultAccept && !decodes(dest.shape, body.value) ==>
      d == (Nil, Some(DecodeFailed))
    ensures body.Some? && (dest.Discard? || (dest.Typed? && accept != DefaultAccept)) ==> d.1 == Some(Plain(UndefinedResponseType))
  {
    if body.None? then (Nil, None)
    else if dest.RawString? then (Text(body.value), None)
    else if dest.Typed? && accept == DefaultAccept then
      if decodes(dest.shape, body.value) then (Decoded(dest.shape, body.value), None)
      else (Nil, Some(DecodeFailed))
    else (Nil, Some(Plain(UndefinedResponseType)))
  }

  /** Do(req, v) when the round trip yields t. */
  function Exchange<P, S>(json: Json<P, S>, req: Request, dest: Destination<S>, t: Transmission): (o: Outcome<S>)
    ensures o.response.None? <==> t.Failed?
    ensures t.Failed? ==> o == Outcome(Nil, None, Some(TransportFailed(t.cause)))
    ensures t.Delivered? ==> o.response == Some(t.response)
    ensures t.Delivered? && !Successful(t.response.status) ==>
      o.value == Nil && o.err.Some? && o.err.value.Api? && o.err.value.details.response == t.response
    ensures o.err.None? ==> t.Delivered? && Successful(t.response.status)
    ensures o.err.Some? ==> o.value == Nil
    ensures dest.Discard? ==> o.value == Nil
    ensures dest.Discard? && t.Delivered? && Successful(t.response.status) ==> o.err.None?
    ensures dest.RawString? && t.Delivered? && Successful(t.response.status) ==>
      o == Outcome(Text(t.response.body), Some(t.response), None)
    ensures t.Delivered? && !Successful(t.response.status) ==>
      o.err == Some(Api(Classify(json.unmarshalError, t.response).value))
    ensures t.Delivered? && Successful(t.response.status) && !dest.Discard? ==>
      (o.value, o.err) == Decoding(json.decodes, dest, Some(t.response.body), HeaderGet(req.header, "Accept"))
  {
    match t
    case Failed(cause) => Outcome(Nil, None, Some(TransportFailed(cause)))
    case Delivered(resp) =>
      var e := Classify(json.unmarshalError, resp);
      if e.Some? then Outcome(Nil, Some(resp), Some(Api(e.value)))
      else if dest.Discard? then Outcome(Nil, Some(resp), None)
      else
        var (v, err) := Decoding(json.decodes, dest, Some(resp.body), HeaderGet(req.header, "Accept"));
        Outcome(v, Some(resp), err)
  }

  /** The value a service returns on error: "" for a string, nil otherwise. */
  function Zero<S>(dest: Destination<S>): Value<S> {
    if dest.RawString? then Text("") else Nil
  }

  /** The request of a call once the service has replaced the Accept header. */
  function WithAccept(req: Request, accept: Option<string>): Request {
    if accept.Some? then req.(header := req.header["Accept" := accept.value]) else req
  }

  /** The request a call sends, for a client whose base URL is `url` after
      NewRequest has appended the call's path to it. */
  function Prepared<P, S>(encode: P -> Option<Bytes>, apiKey: string, userAgent: string,
                          url: Url, call: Call<P, S>): (r: Result<Request, Error>)
    ensures r.Success? ==> HeaderGet(r.value.header, "Accept") == if call.accept.Some? then call.accept.value else DefaultAccept
    ensures r.Success? ==> HeaderGet(r.value.header, "Authorization") == "Bearer " + apiKey
    ensures r.Success? ==> ("Content-Type" in r.value.header <==> call.payload.Some?)
    ensures r.Success? ==> r.value.verb == call.verb && r.value.url == url
    ensures r.Failure? <==> !call.verb.Bodiless() && call.payload.Some? && encode(call.payload.value).None?
    ensures r.Failure? ==> r.error == EncodeFailed
    ensures r.Success? ==>
      r.value.body == (if call.verb.Bodiless() then None
                       else if call.payload.None? then Some("") else encode(call.payload.value))
    ensures r.Success? ==> HeaderGet(r.value.header, "User-Agent") == userAgent
  {
    match RequestTo(encode, apiKey, userAgent, url, call.verb, call.payload)
    case Failure(e) => Failure(e)
    case Success(r) => Success(WithAccept(r, call.accept))
  }

  /** A service method's whole run: on any error the method returns the
      zero value of its result together with the error. */
  function Perform<P, S>(json: Json<P, S>, server: Request -> Transmission,
                         apiKey: string, userAgent: string, url: Url, call: Call<P, S>): (o: Outcome<S>)
    ensures o.err.Some? ==> o.value == Zero(call.dest)
    ensures o.response.Some? ==> (
      var r := Prepared(json.encode, apiKey, userAgent, url, call);
      r.Success? && server(r.value) == Delivered(o.response.value))
    ensures o.err.None? ==> o.response.Some? && Successful(o.response.value.status)
    ensures o.value.Text? ==> call.dest.RawString?
    ensures o.err.None? && call.dest.RawString? ==> o.value == Text(o.response.value.body)
    ensures o.value.Decoded? ==> call.dest == Typed(o.value.shape) && o.value.source == o.response.value.body
    ensures o.value.Decoded? ==> call.accept.None? || call.accept == Some(DefaultAccept)
    ensures call.dest.Discard? ==> o.value == Nil
    ensures var r := Prepared(json.encode, apiKey, userAgent, url, call);
      r.Failure? ==> o == Outcome(Zero(call.dest), None, Some(r.error))
    ensures var r := Prepared(json.encode, apiKey, userAgent, url, call);
      r.Success? ==> var e := Exchange(json, r.value, call.dest, server(r.value));
        o.response == e.response && o.err == e.err && (e.err.None? ==> o.value == e.value)
  {
    match Prepared(json.encode, apiKey, userAgent, url, call)
    case Failure(e) => Outcome(Zero(call.dest), None, Some(e))
    case Success(req) =>
      var o := Exchange(json, req, call.dest, server(req));
      if o.err.Some? then o.(value := Zero(call.dest)) else o
  }

  /** checkResponse: classifies a reply, building the ErrorResponse step by
      step as the source does. */
  method CheckResponse(unmarshal: Bytes -> ErrorFields, r: HttpResponse) returns (err: Option<ErrorResponse>)
    ensures err == Classify(unmarshal, r)
  {
    if 200 <= r.status && r.status <= 299 {
      return None;
    }
    var errResponse := ErrorResponse(r, "", []);
    var data := r.body;
    if |data| > 0 {
      var u := unmarshal(data);
      errResponse := errResponse.(message := u.message, errors := u.errors);
      if !u.ok {
        errResponse := errResponse.(message := data);
      }
    }
    return Some(errResponse);
  }

  /** The client record shared by the sending and the testing client. */
  class Client {
    const apiKey: string
    const host: string
    const userAgent: string
    /** The path of baseURL. NewRequest writes the joined path back into it,
        because `u := c.baseURL` copies the pointer, not the URL. */
    var basePath: string

    /** NewSendingClient: the base is "https://send.api.mailtrap.io/" with
        "api" appended to its path "/". */
    constructor Sending(apiKey: string, userAgent: string)
      ensures this.apiKey == apiKey && this.userAgent == userAgent
      ensures host == SendingHost && basePath == "/api"
    {
      this.apiKey := apiKey;
      this.userAgent := userAgent;
      host := SendingHost;
      basePath := "/" + ApiSuffix;
    }

    /** NewTestingClient: the base is "https://mailtrap.io/" with "api"
        appended to its path "/". */
    constructor Testing(apiKey: string, userAgent: string)
      ensures this.apiKey == apiKey && this.userAgent == userAgent
      ensures host == TestingHost && basePath == "/api"
    {
      this.apiKey := apiKey;
      this.userAgent := userAgent;
      host := TestingHost;
      basePath := "/" + ApiSuffix;
    }

    function BaseUrl(): Url
      reads this
    {
      Url(Https, host, basePath)
    }

    /** NewRequest: joins the base path and `path` (keeping the joined path
        as the new base path, also when encoding then fails), encodes the
        payload for methods that carry a body, and sets the headers. */
    method NewRequest<P>(encode: P -> Option<Bytes>, m: HttpMethod, path: string, payload: Option<P>)
      returns (r: Result<Request, Error>)
      modifies this
      ensures basePath == old(basePath) + path
      ensures r == RequestTo(encode, apiKey, userAgent, BaseUrl(), m, payload)
    {
      basePath := basePath + path;
      var u := Url(Https, host, basePath);
      var body: Option<Bytes>;
      if m == GET || m == HEAD || m == OPTIONS {
        body := None;
      } else {
        var buf := "";
        if payload.Some? {
          var encoded := encode(payload.value);
          if encoded.None? {
            return Failure(EncodeFailed);
          }
          buf := encoded.value;
        }
        body := Some(buf);
      }
      var header: map<string, string> := map[];
      if payload.Some? {
        header := header["Content-Type" := "application/json"];
      }
      header := header["Accept" := DefaultAccept];
      header := header["User-Agent" := userAgent];
      header := header["Authorization" := "Bearer " + apiKey];
      return Success(Request(m, u, body, header));
    }

    /** decode: a nil body leaves the destination alone; a string receives
        the body verbatim; a typed destination is JSON-decoded only when the
        request asked for application/json. */
    method Decode<S>(decodes: (S, Bytes) -> bool, dest: Destination<S>, body: Option<Bytes>, accept: string)
      returns (written: Value<S>, err: Option<Error>)
      ensures (written, err) == Decoding(decodes, dest, body, accept)
    {
      written, err := Nil, None;
      if body.None? {
        return;
      }
      if dest.RawString? {
        written := Text(body.value);
        return;
      }
      if !dest.Discard? && accept == DefaultAccept {
        if !decodes(dest.shape, body.value) {
          err := Some(DecodeFailed);
          return;
        }
        written := Decoded(dest.shape, body.value);
        return;
      }
      err := Some(Plain(UndefinedResponseType));
    }

    /** Do: runs the round trip, classifies the reply and decodes a
        successful one into the destination. */
    method Do<P, S>(json: Json<P, S>, server: Request -> Transmission, req: Request, dest: Destination<S>)
      returns (o: Outcome<S>)
      ensures o == Exchange(json, req, dest, server(req))
    {
      var t := server(req);
      if t.Failed? {
        return Outcome(Nil, None, Some(TransportFailed(t.cause)));
      }
      var resp := t.response;
      var e := CheckResponse(json.unmarshalError, resp);
      if e.Some? {
        return Outcome(Nil, Some(resp), Some(Api(e.value)));
      }
      var written: Value<S> := Nil;
      if !dest.Discard? {
        var err;
        written, err := Decode(json.decodes, dest, Some(resp.body), HeaderGet(req.header, "Accept"));
        if err.Some? {
          return Outcome(written, Some(resp), err);
        }
      }
      return Outcome(written, Some(resp), None);
    }

    /** The body every service method repeats: NewRequest, on failure
        (nil, nil, err); the Accept override of messages' body endpoints;
        Do; on its failure (nil or "", response, err); otherwise the
        destination's value. */
    method Invoke<P, S>(json: Json<P, S>, server: Request -> Transmission, call: Call<P, S>)
      returns (o: Outcome<S>)
      modifies this
      ensures basePath == old(basePath) + call.path
      ensures o == Perform(json, server, apiKey, userAgent, BaseUrl(), call)
    {
      var r := NewRequest(json.encode, call.verb, call.path, call.payload);
      if r.Failure? {
        return Outcome(Zero(call.dest), None, Some(r.error));
      }
      var req := r.value;
      if call.accept.Some? {
        req := req.(header := req.header["Accept" := call.accept.value]);
      }
      assert Prepared(json.encode, apiKey, userAgent, BaseUrl(), call) == Success(req);
      o := Do(json, server, req, call.dest);
      if o.err.Some? {
        o := o.(value := Zero(call.dest));
      }
    }
  }
}
