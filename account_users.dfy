/** The account users service of mailtrap/account_users.go. */
module AccountUsers {
  import opened Common
  import opened Transport

  /** The filters of ListAccountUsers; an absent list is left out. */
  datatype ListAccountUsersParams = ListAccountUsersParams(
    projectIds: Option<seq<int>>, inboxIds: Option<seq<string>>)

  /** The one body the service hands to NewRequest: the *ListAccountUsersParams
      pointer, which is a non-nil interface value even when the pointer is
      nil (None). */
  datatype Payload = Filters(params: Option<ListAccountUsersParams>)

  /** The type replies are decoded into: []*AccountUser. */
  datatype Shape = AccountUserList

  // The path templates, as their literal parts around the `%d` verbs.
  const GetAccountUsersEndpoint := ["/accounts/", "/account_accesses"]
  const DeleteAccountUsersEndpoint := ["/accounts/", "/account_accesses/", ""]

  function ListAccountUsers(accountID: int, params: Option<ListAccountUsersParams>): (c: Call<Payload, Shape>)
    ensures c.path == "/accounts/" + IntString(accountID) + "/account_accesses"
    ensures c.verb == GET && c.payload == Some(Filters(params))
    ensures c.accept.None? && c.dest == Typed(AccountUserList)
  {
    Format1(GetAccountUsersEndpoint, accountID);
    Call(GET, Format(GetAccountUsersEndpoint, [accountID]), Some(Filters(params)), None, Typed(AccountUserList))
  }

  function RemoveAccountUser(accountID: int, accountAccessID: int): (c: Call<Payload, Shape>)
    ensures c.path == "/accounts/" + IntString(accountID) + "/account_accesses/" + IntString(accountAccessID)
    ensures c.verb == DELETE && c.payload.None? && c.accept.None? && c.dest == Discard
  {
    Format2(DeleteAccountUsersEndpoint, accountID, accountAccessID);
    Call(DELETE, Format(DeleteAccountUsersEndpoint, [accountID, accountAccessID]), None, None, Discard)
  }

  /** The filters never reach the server: whatever they are, even absent,
      the same request goes out, with no body and with Content-Type set. */
  lemma FiltersNeverSent(json: Json<Payload, Shape>, apiKey: string, userAgent: string, url: Url,
                         accountID: int, params: Option<ListAccountUsersParams>)
    ensures var r := Prepared(json.encode, apiKey, userAgent, url, ListAccountUsers(accountID, params));
      && r.Success? && r.value.body.None?
      && HeaderGet(r.value.header, "Content-Type") == "application/json"
      && r == Prepared(json.encode, apiKey, userAgent, url, ListAccountUsers(accountID, None))
  {
  }

  /** Different IDs address different account accesses. */
  lemma PathsIdentify(a: int, u: int, a': int, u': int)
    ensures ListAccountUsers(a, None).path == ListAccountUsers(a', None).path ==> a == a'
    ensures RemoveAccountUser(a, u).path == RemoveAccountUser(a', u').path ==> a == a' && u == u'
  {
    if ListAccountUsers(a, None).path == ListAccountUsers(a', None).path {
      assert Separated(GetAccountUsersEndpoint);
      FormatInjective(GetAccountUsersEndpoint, [a], [a']);
    }
    if RemoveAccountUser(a, u).path == RemoveAccountUser(a', u').path {
      assert Separated(DeleteAccountUsersEndpoint);
      FormatInjective(DeleteAccountUsersEndpoint, [a, u], [a', u']);
    }
  }
}
