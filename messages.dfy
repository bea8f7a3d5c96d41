/** The messages service of mailtrap/messages.go: the routes of a message
    in an inbox, the five endpoints that return a message body as text,
    and Forward's address check. */
module Messages {
  import opened Common
  import opened Transport

  datatype UpdateMessageRequest = UpdateMessageRequest(isRead: bool)

  /** The bodies the service sends: Update's {"message": ...} wrapper
      (null when the caller passed nil) and Forward's {"email": ...}. */
  datatype Payload = MessageEnvelope(message: Option<UpdateMessageRequest>) | ForwardRequest(email: string)

  /** The types replies are decoded into: []*Message, *Message and
      *SpamReport. */
  datatype Shape = MessageList | Message | Report

  const ForwardInvalid := "Forward 'email' is invalid."
  const TextPlain := "text/plain"
  const TextHtml := "text/html"
  /** The media type of section 5.2.1 of RFC 2046. */
  const MessageRfc822 := "message/rfc822"

  // The path templates, as their literal parts around the `%d` verbs.
  const MessagesParts := ["/accounts/", "/inboxes/", "/messages"]
  const MessageParts := MessagePath("")
  const ForwardParts := MessagePath("/forward")
  const SpamReportParts := MessagePath("/spam_report")
  const RawParts := MessagePath("/body.raw")
  const TextParts := MessagePath("/body.txt")
  const HtmlParts := MessagePath("/body.html")
  const HtmlSourceParts := MessagePath("/body.htmlsource")
  const EmlParts := MessagePath("/body.eml")

  function List(accountID: int, inboxID: int): (c: Call<Payload, Shape>)
    ensures c.path == "/accounts/" + IntString(accountID) + "/inboxes/" + IntString(inboxID) + "/messages"
    ensures c.verb == GET && c.payload.None? && c.accept.None? && c.dest == Typed(MessageList)
  {
    Format2(MessagesParts, accountID, inboxID);
    Call(GET, Format(MessagesParts, [accountID, inboxID]), None, None, Typed(MessageList))
  }

  function Get(accountID: int, inboxID: int, messageID: int): (c: Call<Payload, Shape>)
    ensures c.path == "/accounts/" + IntString(accountID) + "/inboxes/" + IntString(inboxID)
                      + "/messages/" + IntString(messageID)
    ensures c.verb == GET && c.payload.None? && c.accept.None? && c.dest == Typed(Message)
  {
    Format3(MessageParts, accountID, inboxID, messageID);
    Call(GET, Format(MessageParts, [accountID, inboxID, messageID]), None, None, Typed(Message))
  }

  function Update(accountID: int, inboxID: int, messageID: int, updateReq: Option<UpdateMessageRequest>)
    : (c: Call<Payload, Shape>)
    ensures c.path == "/accounts/" + IntString(accountID) + "/inboxes/" + IntString(inboxID)
                      + "/messages/" + IntString(messageID)
    ensures c.verb == PATCH && c.payload == Some(MessageEnvelope(updateReq))
    ensures c.accept.None? && c.dest == Typed(Message)
  {
    Format3(MessageParts, accountID, inboxID, messageID);
    Call(PATCH, Format(MessageParts, [accountID, inboxID, messageID]), Some(MessageEnvelope(updateReq)),
         None, Typed(Message))
  }

  function Delete(accountID: int, inboxID: int, messageID: int): (c: Call<Payload, Shape>)
    ensures c.path == "/accounts/" + IntString(accountID) + "/inboxes/" + IntString(inboxID)
                      + "/messages/" + IntString(messageID)
    ensures c.verb == DELETE && c.payload.None? && c.accept.None? && c.dest == Discard
  {
    Format3(MessageParts, accountID, inboxID, messageID);
    Call(DELETE, Format(MessageParts, [accountID, inboxID, messageID]), None, None, Discard)
  }

  /** Forward: an address that does not parse (net/mail's reading of
      section 3.4 of RFC 5322, given here as `validAddress`) stops the
      call before any request is built. */
  function Forward(validAddress: string -> bool, accountID: int, inboxID: int, messageID: int, email: string)
    : (r: Result<Call<Payload, Shape>, Error>)
    ensures r.Failure? <==> !validAddress(email)
    ensures r.Failure? ==> r.error == Plain(ForwardInvalid)
    ensures r.Success? ==> r.value.path == "/accounts/" + IntString(accountID) + "/inboxes/" + IntString(inboxID)
                                           + "/messages/" + IntString(messageID) + "/forward"
    ensures r.Success? ==> r.value.verb == POST && r.value.payload == Some(ForwardRequest(email))
    ensures r.Success? ==> r.value.accept.None? && r.value.dest == Discard
  {
    if !validAddress(email) then Failure(Plain(ForwardInvalid))
    else
      Format3(ForwardParts, accountID, inboxID, messageID);
      Success(Call(POST, Format(ForwardParts, [accountID, inboxID, messageID]), Some(ForwardRequest(email)),
                   None, Discard))
  }

  function SpamReport(accountID: int, inboxID: int, messageID: int): (c: Call<Payload, Shape>)
    ensures c.path == "/accounts/" + IntString(accountID) + "/inboxes/" + IntString(inboxID)
                      + "/messages/" + IntString(messageID) + "/spam_report"
    ensures c.verb == GET && c.payload.None? && c.accept.None? && c.dest == Typed(Report)
  {
    Format3(SpamReportParts, accountID, inboxID, messageID);
    Call(GET, Format(SpamReportParts, [accountID, inboxID, messageID]), None, None, Typed(Report))
  }

  /** The call makeRequest(endpoint, method, accept) performs: no payload,
      the given Accept header, and the reply captured as a string. */
  function BodyCall(endpoint: string, httpMethod: HttpMethod, acceptHeader: string): Call<Payload, Shape> {
    Call(httpMethod, endpoint, None, Some(acceptHeader), RawString)
  }

  function AsRaw(accountID: int, inboxID: int, messageID: int): (c: Call<Payload, Shape>)
    ensures c.path == "/accounts/" + IntString(accountID) + "/inboxes/" + IntString(inboxID)
                      + "/messages/" + IntString(messageID) + "/body.raw"
    ensures c == BodyCall(c.path, GET, "text/plain")
  {
    Format3(RawParts, accountID, inboxID, messageID);
    BodyCall(Format(RawParts, [accountID, inboxID, messageID]), GET, TextPlain)
  }

  function AsText(accountID: int, inboxID: int, messageID: int): (c: Call<Payload, Shape>)
    ensures c.path == "/accounts/" + IntString(accountID) + "/inboxes/" + IntString(inboxID)
                      + "/messages/" + IntString(messageID) + "/body.txt"
    ensures c == BodyCall(c.path, GET, "text/plain")
  {
    Format3(TextParts, accountID, inboxID, messageID);
    BodyCall(Format(TextParts, [accountID, inboxID, messageID]), GET, TextPlain)
  }

  function AsHTML(accountID: int, inboxID: int, messageID: int): (c: Call<Payload, Shape>)
    ensures c.path == "/accounts/" + IntString(accountID) + "/inboxes/" + IntString(inboxID)
                      + "/messages/" + IntString(messageID) + "/body.html"
    ensures c == BodyCall(c.path, GET, "text/html")
  {
    Format3(HtmlParts, accountID, inboxID, messageID);
    BodyCall(Format(HtmlParts, [accountID, inboxID, messageID]), GET, TextHtml)
  }

  function AsHTMLSource(accountID: int, inboxID: int, messageID: int): (c: Call<Payload, Shape>)
    ensures c.path == "/accounts/" + IntString(accountID) + "/inboxes/" + IntString(inboxID)
                      + "/messages/" + IntString(messageID) + "/body.htmlsource"
    ensures c == BodyCall(c.path, GET, "text/html")
  {
    Format3(HtmlSourceParts, accountID, inboxID, messageID);
    BodyCall(Format(HtmlSourceParts, [accountID, inboxID, messageID]), GET, TextHtml)
  }

  function AsEML(accountID: int, inboxID: int, messageID: int): (c: Call<Payload, Shape>)
    ensures c.path == "/accounts/" + IntString(accountID) + "/inboxes/" + IntString(inboxID)
                      + "/messages/" + IntString(messageID) + "/body.eml"
    ensures c == BodyCall(c.path, GET, "message/rfc822")
  {
    Format3(EmlParts, accountID, inboxID, messageID);
    BodyCall(Format(EmlParts, [accountID, inboxID, messageID]), GET, MessageRfc822)
  }

  /** makeRequest: NewRequest without a body, the Accept header replaced,
      Do into a string; "" on any error. */
  method MakeRequest(c: Client, json: Json<Payload, Shape>, server: Request -> Transmission,
                     endpoint: string, httpMethod: HttpMethod, acceptHeader: string)
    returns (text: string, res: Option<HttpResponse>, err: Option<Error>)
    modifies c
    ensures c.basePath == old(c.basePath) + endpoint
    ensures Outcome(Text(text), res, err)
         == Perform(json, server, c.apiKey, c.userAgent, c.BaseUrl(), BodyCall(endpoint, httpMethod, acceptHeader))
  {
    var o := c.Invoke(json, server, BodyCall(endpoint, httpMethod, acceptHeader));
    return o.value.text, o.response, o.err;
  }

  /** Forward on a client: an address that does not parse returns
      (nil, err) and leaves the client alone; otherwise the POST runs with
      no decode target. */
  method ForwardMessage(c: Client, json: Json<Payload, Shape>, server: Request -> Transmission,
                        validAddress: string -> bool, accountID: int, inboxID: int, messageID: int, email: string)
    returns (res: Option<HttpResponse>, err: Option<Error>)
    modifies c
    ensures !validAddress(email) ==> res.None? && err == Some(Plain(ForwardInvalid)) && c.basePath == old(c.basePath)
    ensures validAddress(email) ==>
      var call := Forward(validAddress, accountID, inboxID, messageID, email).value;
      c.basePath == old(c.basePath) + call.path &&
      Outcome(Nil, res, err) == Perform(json, server, c.apiKey, c.userAgent, c.BaseUrl(), call)
  {
    var r := Forward(validAddress, accountID, inboxID, messageID, email);
    if r.Failure? {
      return None, Some(r.error);
    }
    var o := c.Invoke(json, server, r.value);
    return o.response, o.err;
  }

  /** The body endpoints give the reply's body verbatim whatever their
      Accept header, and "" with the error otherwise. */
  lemma BodyVerbatim(json: Json<Payload, Shape>, server: Request -> Transmission, apiKey: string,
                     userAgent: string, url: Url, endpoint: string, acceptHeader: string)
    ensures var o := Perform(json, server, apiKey, userAgent, url, BodyCall(endpoint, GET, acceptHeader));
      && o.value.Text?
      && (o.err.None? ==> o.value.text == o.response.value.body)
      && (o.err.Some? ==> o.value.text == "")
      && (o.response.Some? ==> var r := Prepared(json.encode, apiKey, userAgent, url, BodyCall(endpoint, GET, acceptHeader));
            r.value.body.None? && HeaderGet(r.value.header, "Accept") == acceptHeader
            && "Content-Type" !in r.value.header)
    ensures var r := Prepared(json.encode, apiKey, userAgent, url, BodyCall(endpoint, GET, acceptHeader));
      r.Success? && server(r.value).Delivered? && Successful(server(r.value).response.status) ==>
        var resp := server(r.value).response;
        Perform(json, server, apiKey, userAgent, url, BodyCall(endpoint, GET, acceptHeader))
          == Outcome(Text(resp.body), Some(resp), None)
  {
  }

  /** Every message route starts with the same three IDs. */
  function MessagePath(suffix: string): seq<string> {
    ["/accounts/", "/inboxes/", "/messages/", suffix]
  }

  /** Different IDs address different inboxes: the IDs can be read back
      from the list path. */
  lemma ListIdentifies(a: int, i: int, a': int, i': int)
    requires List(a, i).path == List(a', i').path
    ensures a == a' && i == i'
  {
    assert Separated(MessagesParts);
    FormatInjective(MessagesParts, [a, i], [a', i']);
  }

  /** A message route's path gives its three IDs back. */
  lemma RouteIdentifies(suffix: string, ids: seq<int>, ids': seq<int>)
    requires Delimits(suffix)
    requires |ids| == |ids'| == 3
    requires Format(MessagePath(suffix), ids) == Format(MessagePath(suffix), ids')
    ensures ids == ids'
  {
    assert Separated(MessagePath(suffix));
    FormatInjective(MessagePath(suffix), ids, ids');
  }

  /** Different IDs address different messages, on every route below a
      message. */
  lemma PathsIdentify(a: int, i: int, m: int, a': int, i': int, m': int)
    ensures Get(a, i, m).path == Get(a', i', m').path ==> a == a' && i == i' && m == m'
    ensures Update(a, i, m, None).path == Update(a', i', m', None).path ==> a == a' && i == i' && m == m'
    ensures Delete(a, i, m).path == Delete(a', i', m').path ==> a == a' && i == i' && m == m'
    ensures SpamReport(a, i, m).path == SpamReport(a', i', m').path ==> a == a' && i == i' && m == m'
    ensures AsRaw(a, i, m).path == AsRaw(a', i', m').path ==> a == a' && i == i' && m == m'
    ensures AsText(a, i, m).path == AsText(a', i', m').path ==> a == a' && i == i' && m == m'
    ensures AsHTML(a, i, m).path == AsHTML(a', i', m').path ==> a == a' && i == i' && m == m'
    ensures AsHTMLSource(a, i, m).path == AsHTMLSource(a', i', m').path ==> a == a' && i == i' && m == m'
    ensures AsEML(a, i, m).path == AsEML(a', i', m').path ==> a == a' && i == i' && m == m'
  {
    var ids, ids' := [a, i, m], [a', i', m'];
    if Get(a, i, m).path == Get(a', i', m').path { RouteIdentifies("", ids, ids'); }
    if SpamReport(a, i, m).path == SpamReport(a', i', m').path { RouteIdentifies("/spam_report", ids, ids'); }
    if AsRaw(a, i, m).path == AsRaw(a', i', m').path { RouteIdentifies("/body.raw", ids, ids'); }
    if AsText(a, i, m).path == AsText(a', i', m').path { RouteIdentifies("/body.txt", ids, ids'); }
    if AsHTML(a, i, m).path == AsHTML(a', i', m').path { RouteIdentifies("/body.html", ids, ids'); }
    if AsHTMLSource(a, i, m).path == AsHTMLSource(a', i', m').path {
      RouteIdentifies("/body.htmlsource", ids, ids');
    }
    if AsEML(a, i, m).path == AsEML(a', i', m').path { RouteIdentifies("/body.eml", ids, ids'); }
  }

  /** A forwarded message's path gives its IDs back. */
  lemma ForwardIdentifies(validAddress: string -> bool, a: int, i: int, m: int, a': int, i': int, m': int,
                          email: string)
    requires validAddress(email)
    requires Forward(validAddress, a, i, m, email).value.path == Forward(validAddress, a', i', m', email).value.path
    ensures a == a' && i == i' && m == m'
  {
    RouteIdentifies("/forward", [a, i, m], [a', i', m']);
  }
}
