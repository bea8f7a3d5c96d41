/** The accounts service of mailtrap/accounts.go. */
module Accounts {
  import opened Common
  import opened Transport

  /** The service never sends a payload. */
  datatype Payload = NoPayload

  /** The type replies are decoded into: []*Account. */
  datatype Shape = AccountList

  const GetAccountsEndpoint := "/accounts"

  function ListAccounts(): (c: Call<Payload, Shape>)
    ensures c.path == "/accounts"
    ensures c.verb == GET && c.payload.None? && c.accept.None? && c.dest == Typed(AccountList)
  {
    Call(GET, GetAccountsEndpoint, None, None, Typed(AccountList))
  }

  /** ListAccounts sends no body and no Content-Type, and gives a nil list
      with the response whenever Do fails. */
  lemma ListAccountsRequest(json: Json<Payload, Shape>, server: Request -> Transmission,
                            apiKey: string, userAgent: string, url: Url)
    ensures var r := Prepared(json.encode, apiKey, userAgent, url, ListAccounts());
      r.Success? && r.value.body.None? && "Content-Type" !in r.value.header
    ensures var o := Perform(json, server, apiKey, userAgent, url, ListAccounts());
      o.err.Some? ==> o.value == Nil
  {
  }
}
