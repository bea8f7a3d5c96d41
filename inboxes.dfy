/** The inboxes service of mailtrap/inboxes.go: its path templates, the
    verbs and payloads of its methods, and its shared makeRequest. */
module Inboxes {
  import opened Common
  import opened Transport

  datatype UpdateInboxRequest = UpdateInboxRequest(name: string, emailUsername: string)

  /** The bodies the service sends: CreateInbox's {"inbox": {"name"}} and
      UpdateInbox's {"inbox": ...} wrapper (null when the caller passed
      nil). */
  datatype Payload = CreateInboxRequest(name: string) | InboxEnvelope(inbox: Option<UpdateInboxRequest>)

  /** The types replies are decoded into: []*Inbox and *Inbox. */
  datatype Shape = InboxList | Inbox

  /** The routes below one inbox: "/accounts/%d/inboxes/%d" + suffix. */
  function InboxPath(suffix: string): seq<string> {
    ["/accounts/", "/inboxes/", suffix]
  }

  // The path templates, as their literal parts around the `%d` verbs.
  const GetInboxesEndpoint := ["/accounts/", "/inboxes"]
  const InboxEndpoint := InboxPath("")     // get, delete and update
  const CleanInboxEndpoint := InboxPath("/clean")
  const MarkAsReadEndpoint := InboxPath("/all_read")
  const ResetCredentialsEndpoint := InboxPath("/reset_credentials")
  const ResetEmailEndpoint := InboxPath("/reset_email_username")
  const EnableEmailEndpoint := InboxPath("/toggle_email_username")
  const CreateInboxEndpoint := ["/accounts/", "/projects/", "/inboxes"]

  /** CreateInbox: the second argument, named inboxID in the source, fills
      the project slot; the payload goes with a GET. */
  function CreateInbox(accountID: int, inboxID: int, name: string): (c: Call<Payload, Shape>)
    ensures c.path == "/accounts/" + IntString(accountID) + "/projects/" + IntString(inboxID) + "/inboxes"
    ensures c.verb == GET && c.payload == Some(CreateInboxRequest(name))
    ensures c.accept.None? && c.dest == Typed(Inbox)
  {
    Format2(CreateInboxEndpoint, accountID, inboxID);
    Call(GET, Format(CreateInboxEndpoint, [accountID, inboxID]), Some(CreateInboxRequest(name)), None, Typed(Inbox))
  }

  function UpdateInbox(accountID: int, inboxID: int, updRequest: Option<UpdateInboxRequest>): (c: Call<Payload, Shape>)
    ensures c.path == "/accounts/" + IntString(accountID) + "/inboxes/" + IntString(inboxID)
    ensures c.verb == PATCH && c.payload == Some(InboxEnvelope(updRequest))
    ensures c.accept.None? && c.dest == Typed(Inbox)
  {
    Format2(InboxEndpoint, accountID, inboxID);
    Call(PATCH, Format(InboxEndpoint, [accountID, inboxID]), Some(InboxEnvelope(updRequest)), None, Typed(Inbox))
  }

  function ListInboxes(accountID: int): (c: Call<Payload, Shape>)
    ensures c.path == "/accounts/" + IntString(accountID) + "/inboxes"
    ensures c.verb == GET && c.payload.None? && c.accept.None? && c.dest == Typed(InboxList)
  {
    Format1(GetInboxesEndpoint, accountID);
    Call(GET, Format(GetInboxesEndpoint, [accountID]), None, None, Typed(InboxList))
  }

  function GetInbox(accountID: int, inboxID: int): (c: Call<Payload, Shape>)
    ensures c.path == "/accounts/" + IntString(accountID) + "/inboxes/" + IntString(inboxID)
    ensures c.verb == GET && c.payload.None? && c.accept.None? && c.dest == Typed(Inbox)
  {
    Format2(InboxEndpoint, accountID, inboxID);
    Call(GET, Format(InboxEndpoint, [accountID, inboxID]), None, None, Typed(Inbox))
  }

  function DeleteInbox(accountID: int, inboxID: int): (c: Call<Payload, Shape>)
    ensures c.path == "/accounts/" + IntString(accountID) + "/inboxes/" + IntString(inboxID)
    ensures c.verb == DELETE && c.payload.None? && c.accept.None? && c.dest == Discard
  {
    Format2(InboxEndpoint, accountID, inboxID);
    Call(DELETE, Format(InboxEndpoint, [accountID, inboxID]), None, None, Discard)
  }

  /** The five inbox actions: a PATCH with a nil payload below the inbox. */
  function Action(parts: seq<string>, accountID: int, inboxID: int): Call<Payload, Shape>
    requires |parts| == 3
  {
    Call(PATCH, Format(parts, [accountID, inboxID]), None, None, Typed(Inbox))
  }

  function CleanInbox(accountID: int, inboxID: int): (c: Call<Payload, Shape>)
    ensures c.path == "/accounts/" + IntString(accountID) + "/inboxes/" + IntString(inboxID) + "/clean"
    ensures c.verb == PATCH && c.payload.None? && c.accept.None? && c.dest == Typed(Inbox)
  {
    Format2(CleanInboxEndpoint, accountID, inboxID);
    Action(CleanInboxEndpoint, accountID, inboxID)
  }

  function MarkAsRead(accountID: int, inboxID: int): (c: Call<Payload, Shape>)
    ensures c.path == "/accounts/" + IntString(accountID) + "/inboxes/" + IntString(inboxID) + "/all_read"
    ensures c.verb == PATCH && c.payload.None? && c.accept.None? && c.dest == Typed(Inbox)
  {
    Format2(MarkAsReadEndpoint, accountID, inboxID);
    Action(MarkAsReadEndpoint, accountID, inboxID)
  }

  function ResetCredentials(accountID: int, inboxID: int): (c: Call<Payload, Shape>)
    ensures c.path == "/accounts/" + IntString(accountID) + "/inboxes/" + IntString(inboxID) + "/reset_credentials"
    ensures c.verb == PATCH && c.payload.None? && c.accept.None? && c.dest == Typed(Inbox)
  {
    Format2(ResetCredentialsEndpoint, accountID, inboxID);
    Action(ResetCredentialsEndpoint, accountID, inboxID)
  }

  function EnableEmail(accountID: int, inboxID: int): (c: Call<Payload, Shape>)
    ensures c.path == "/accounts/" + IntString(accountID) + "/inboxes/" + IntString(inboxID) + "/toggle_email_username"
    ensures c.verb == PATCH && c.payload.None? && c.accept.None? && c.dest == Typed(Inbox)
  {
    Format2(EnableEmailEndpoint, accountID, inboxID);
    Action(EnableEmailEndpoint, accountID, inboxID)
  }

  function ResetEmail(accountID: int, inboxID: int): (c: Call<Payload, Shape>)
    ensures c.path == "/accounts/" + IntString(accountID) + "/inboxes/" + IntString(inboxID) + "/reset_email_username"
    ensures c.verb == PATCH && c.payload.None? && c.accept.None? && c.dest == Typed(Inbox)
  {
    Format2(ResetEmailEndpoint, accountID, inboxID);
    Action(ResetEmailEndpoint, accountID, inboxID)
  }

  /** makeRequest: NewRequest with the given method and payload, Do into
      an *Inbox; (nil, nil, err) when NewRequest fails and (nil, res, err)
      when Do does. */
  method MakeRequest(c: Client, json: Json<Payload, Shape>, server: Request -> Transmission,
                     endpoint: string, httpMethod: HttpMethod, payload: Option<Payload>)
    returns (o: Outcome<Shape>)
    modifies c
    ensures c.basePath == old(c.basePath) + endpoint
    ensures o == Perform(json, server, c.apiKey, c.userAgent, c.BaseUrl(), Call(httpMethod, endpoint, payload, None, Typed(Inbox)))
    ensures o.err.Some? ==> o.value == Nil
    ensures o.err.None? ==> o.value == Decoded(Inbox, o.response.value.body)
  {
    o := c.Invoke(json, server, Call(httpMethod, endpoint, payload, None, Typed(Inbox)));
  }

  /** CreateInbox's payload never leaves the client, because it goes with
      a GET, yet the request still says Content-Type: application/json. */
  lemma CreateInboxSendsNoBody(json: Json<Payload, Shape>, apiKey: string, userAgent: string, url: Url,
                               accountID: int, inboxID: int, name: string)
    ensures var r := Prepared(json.encode, apiKey, userAgent, url, CreateInbox(accountID, inboxID, name));
      r.Success? && r.value.body.None? && HeaderGet(r.value.header, "Content-Type") == "application/json"
  {
  }

  /** The five actions send an empty body and no Content-Type. */
  lemma ActionsSendEmptyBody(json: Json<Payload, Shape>, apiKey: string, userAgent: string, url: Url,
                             accountID: int, inboxID: int)
    ensures forall c :: c in {CleanInbox(accountID, inboxID), MarkAsRead(accountID, inboxID),
                              ResetCredentials(accountID, inboxID), EnableEmail(accountID, inboxID),
                              ResetEmail(accountID, inboxID)} ==>
      var r := Prepared(json.encode, apiKey, userAgent, url, c);
      r.Success? && r.value.body == Some("") && "Content-Type" !in r.value.header
  {
  }

  /** A route below an inbox gives its two IDs back. */
  lemma RouteIdentifies(suffix: string, ids: seq<int>, ids': seq<int>)
    requires Delimits(suffix)
    requires |ids| == |ids'| == 2
    requires Format(InboxPath(suffix), ids) == Format(InboxPath(suffix), ids')
    ensures ids == ids'
  {
    assert Separated(InboxPath(suffix));
    FormatInjective(InboxPath(suffix), ids, ids');
  }

  /** Different accounts list different inboxes. */
  lemma ListIdentifies(a: int, a': int)
    requires ListInboxes(a).path == ListInboxes(a').path
    ensures a == a'
  {
    assert Separated(GetInboxesEndpoint);
    FormatInjective(GetInboxesEndpoint, [a], [a']);
  }

  /** Different accounts or projects create into different paths. */
  lemma CreateIdentifies(a: int, p: int, a': int, p': int, name: string)
    requires CreateInbox(a, p, name).path == CreateInbox(a', p', name).path
    ensures a == a' && p == p'
  {
    assert Separated(CreateInboxEndpoint);
    FormatInjective(CreateInboxEndpoint, [a, p], [a', p']);
  }

  /** Different IDs address different inboxes. */
  lemma PathsIdentify(a: int, i: int, a': int, i': int)
    ensures GetInbox(a, i).path == GetInbox(a', i').path ==> a == a' && i == i'
    ensures CleanInbox(a, i).path == CleanInbox(a', i').path ==> a == a' && i == i'
    ensures MarkAsRead(a, i).path == MarkAsRead(a', i').path ==> a == a' && i == i'
    ensures ResetCredentials(a, i).path == ResetCredentials(a', i').path ==> a == a' && i == i'
    ensures EnableEmail(a, i).path == EnableEmail(a', i').path ==> a == a' && i == i'
    ensures ResetEmail(a, i).path == ResetEmail(a', i').path ==> a == a' && i == i'
  {
    var ids, ids' := [a, i], [a', i'];
    if GetInbox(a, i).path == GetInbox(a', i').path { RouteIdentifies("", ids, ids'); }
    if CleanInbox(a, i).path == CleanInbox(a', i').path { RouteIdentifies("/clean", ids, ids'); }
    if MarkAsRead(a, i).path == MarkAsRead(a', i').path { RouteIdentifies("/all_read", ids, ids'); }
    if ResetCredentials(a, i).path == ResetCredentials(a', i').path {
      RouteIdentifies("/reset_credentials", ids, ids');
    }
    if EnableEmail(a, i).path == EnableEmail(a', i').path { RouteIdentifies("/toggle_email_username", ids, ids'); }
    if ResetEmail(a, i).path == ResetEmail(a', i').path { RouteIdentifies("/reset_email_username", ids, ids'); }
  }
}
