/** The attachments service of mailtrap/attachments.go. */
module Attachments {
  import opened Common
  import opened Transport

  /** The service never sends a payload. */
  datatype Payload = NoPayload

  /** The types replies are decoded into: []*Attachment and *Attachment. */
  datatype Shape = AttachmentList | Attachment

  // The path templates, as their literal parts around the `%d` verbs.
  const AttachmentsParts := ["/accounts/", "/inboxes/", "/messages/", "/attachments"]
  const AttachmentParts := ["/accounts/", "/inboxes/", "/messages/", "/attachments/", ""]

  function List(accountID: int, inboxID: int, messageID: int): (c: Call<Payload, Shape>)
    ensures c.path == "/accounts/" + IntString(accountID) + "/inboxes/" + IntString(inboxID)
                      + "/messages/" + IntString(messageID) + "/attachments"
    ensures c.verb == GET && c.payload.None? && c.accept.None? && c.dest == Typed(AttachmentList)
  {
    Format3(AttachmentsParts, accountID, inboxID, messageID);
    Call(GET, Format(AttachmentsParts, [accountID, inboxID, messageID]), None, None, Typed(AttachmentList))
  }

  function Get(accountID: int, inboxID: int, messageID: int, attachmentID: int): (c: Call<Payload, Shape>)
    ensures c.path == "/accounts/" + IntString(accountID) + "/inboxes/" + IntString(inboxID)
                      + "/messages/" + IntString(messageID) + "/attachments/" + IntString(attachmentID)
    ensures c.verb == GET && c.payload.None? && c.accept.None? && c.dest == Typed(Attachment)
  {
    Format4(AttachmentParts, accountID, inboxID, messageID, attachmentID);
    Call(GET, Format(AttachmentParts, [accountID, inboxID, messageID, attachmentID]), None, None, Typed(Attachment))
  }

  /** When the round trip itself fails, Get returns neither an attachment
      nor a response, only the transport's error. */
  lemma TransportFailureGivesNothing(json: Json<Payload, Shape>, server: Request -> Transmission,
                                     apiKey: string, userAgent: string, url: Url,
                                     accountID: int, inboxID: int, messageID: int, attachmentID: int)
    requires var r := Prepared(json.encode, apiKey, userAgent, url, Get(accountID, inboxID, messageID, attachmentID));
      r.Success? && server(r.value).Failed?
    ensures var c := Get(accountID, inboxID, messageID, attachmentID);
      var o := Perform(json, server, apiKey, userAgent, url, c);
      o.value == Nil && o.response.None?
      && o.err == Some(TransportFailed(server(Prepared(json.encode, apiKey, userAgent, url, c).value).cause))
  {
  }

  /** Different IDs address different attachment lists. */
  lemma ListIdentifies(a: int, i: int, m: int, a': int, i': int, m': int)
    ensures List(a, i, m).path == List(a', i', m').path ==> a == a' && i == i' && m == m'
  {
    if List(a, i, m).path == List(a', i', m').path {
      assert Separated(AttachmentsParts);
      FormatInjective(AttachmentsParts, [a, i, m], [a', i', m']);
    }
  }

  /** Different IDs address different attachments. */
  lemma GetIdentifies(a: int, i: int, m: int, t: int, a': int, i': int, m': int, t': int)
    ensures Get(a, i, m, t).path == Get(a', i', m', t').path ==> a == a' && i == i' && m == m' && t == t'
  {
    if Get(a, i, m, t).path == Get(a', i', m', t').path {
      assert Separated(AttachmentParts);
      FormatInjective(AttachmentParts, [a, i, m, t], [a', i', m', t']);
    }
  }
}
