/** The sending service of mailtrap/send_email.go: `Send` checks its
    request before it builds anything, then POSTs it to /send. */
module Sending {
  import opened Common
  import opened Transport
  import opened Email

  const SendEmailEndpoint := "/send"
  const RequestMandatory := "request `SendEmailRequest` to send mail is mandatory"

  /** The type the reply is decoded into (SendEmailResponse). */
  datatype Shape = SendEmailResponse

  /** What Send hands to the transport, or the error it stops with before
      building a request: nil first, then the validation error. */
  function SendCall(request: Option<SendEmailRequest>): (r: Result<Call<SendEmailRequest, Shape>, Error>)
    ensures request.None? ==> r == Failure(Plain(RequestMandatory))
    ensures request.Some? ==> (r.Success? <==> Sendable(request.value))
    ensures request.Some? && r.Failure? ==> r.error.Plain? && ValidationError(request.value) == Some(r.error.message)
    ensures r.Success? ==> r.value == Call(POST, "/send", request, None, Typed(SendEmailResponse))
  {
    if request.None? then Failure(Plain(RequestMandatory))
    else
      ValidIff(request.value);
      match ValidationError(request.value)
      case Some(msg) => Failure(Plain(msg))
      case None => Success(Call(POST, SendEmailEndpoint, request, None, Typed(SendEmailResponse)))
  }

  /** Send on a client: a request that is nil or fails validation returns
      (nil, nil, err) and leaves the client alone; otherwise the call runs
      through NewRequest and Do. */
  method Send(c: Client, json: Json<SendEmailRequest, Shape>, server: Request -> Transmission,
              request: Option<SendEmailRequest>)
    returns (o: Outcome<Shape>)
    modifies c
    ensures SendCall(request).Failure? ==>
      o == Outcome(Nil, None, Some(SendCall(request).error)) && c.basePath == old(c.basePath)
    ensures SendCall(request).Success? ==>
      c.basePath == old(c.basePath) + SendEmailEndpoint &&
      o == Perform(json, server, c.apiKey, c.userAgent, c.BaseUrl(), SendCall(request).value)
  {
    if request.None? {
      return Outcome(Nil, None, Some(Plain(RequestMandatory)));
    }
    var err := Validate(request.value);
    if err.Some? {
      return Outcome(Nil, None, Some(Plain(err.value)));
    }
    o := c.Invoke(json, server, Call(POST, SendEmailEndpoint, request, None, Typed(SendEmailResponse)));
  }

  /** The request a valid send puts on the wire: a POST whose body is the
      JSON encoding of the request, with Content-Type and Accept both
      application/json. */
  lemma SendRequest(json: Json<SendEmailRequest, Shape>, apiKey: string, userAgent: string, url: Url,
                    request: SendEmailRequest)
    requires Sendable(request) && json.encode(request).Some?
    ensures var r := Prepared(json.encode, apiKey, userAgent, url, SendCall(Some(request)).value);
      && r.Success? && r.value.verb == POST && r.value.body == json.encode(request)
      && HeaderGet(r.value.header, "Content-Type") == DefaultAccept
      && HeaderGet(r.value.header, "Accept") == DefaultAccept
  {
  }

  /** Because NewRequest writes the joined path back into the client's base
      URL, two valid sends on a fresh sending client go to /api/send and
      then /api/send/send. */
  method SendTwice(json: Json<SendEmailRequest, Shape>, server: Request -> Transmission,
                   apiKey: string, userAgent: string, request: SendEmailRequest)
    returns (first: Url, second: Url)
    requires Sendable(request)
    ensures first == Url("https", "send.api.mailtrap.io", "/api/send")
    ensures second == Url("https", "send.api.mailtrap.io", "/api/send/send")
  {
    var c := new Client.Sending(apiKey, userAgent);
    var o := Send(c, json, server, Some(request));
    first := c.BaseUrl();
    o := Send(c, json, server, Some(request));
    second := c.BaseUrl();
  }
}
