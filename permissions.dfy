/** The permissions service of mailtrap/permissions.go. */
module Permissions {
  import opened Common
  import opened Transport

  datatype PermissionRequest = PermissionRequest(
    resourceId: int, resourceType: string, accessLevel: string, destroy: bool)

  /** The one body the service builds: {"permissions": [...]}, with null
      for a nil list. */
  datatype Payload = PermissionEnvelope(permissions: Option<seq<PermissionRequest>>)

  /** The type replies are decoded into: []*Resource. */
  datatype Shape = ResourceList

  // The path templates, as their literal parts around the `%d` verbs.
  const GetResourcesEndpoint := ["/accounts/", "/permissions/resources"]
  const UpdatePermissionEndpoint := ["/accounts/", "/account_accesses/", "/permissions/bulk"]

  function GetResources(accountID: int): (c: Call<Payload, Shape>)
    ensures c.path == "/accounts/" + IntString(accountID) + "/permissions/resources"
    ensures c.verb == GET && c.payload.None? && c.accept.None? && c.dest == Typed(ResourceList)
  {
    Format1(GetResourcesEndpoint, accountID);
    Call(GET, Format(GetResourcesEndpoint, [accountID]), None, None, Typed(ResourceList))
  }

  /** ManagePermission: the wrapped list goes with a GET and no decode
      target. */
  function ManagePermission(accountID: int, accountAccessID: int, payload: Option<seq<PermissionRequest>>)
    : (c: Call<Payload, Shape>)
    ensures c.path == "/accounts/" + IntString(accountID) + "/account_accesses/" + IntString(accountAccessID)
                      + "/permissions/bulk"
    ensures c.verb == GET && c.payload == Some(PermissionEnvelope(payload))
    ensures c.accept.None? && c.dest == Discard
  {
    Format2(UpdatePermissionEndpoint, accountID, accountAccessID);
    Call(GET, Format(UpdatePermissionEndpoint, [accountID, accountAccessID]), Some(PermissionEnvelope(payload)),
         None, Discard)
  }

  /** The permissions ManagePermission is given never leave the client:
      the request has no body, though it says Content-Type:
      application/json; and a 2xx reply is all it reports. */
  lemma ManagePermissionSendsNoBody(json: Json<Payload, Shape>, server: Request -> Transmission,
                                    apiKey: string, userAgent: string, url: Url,
                                    accountID: int, accountAccessID: int, payload: Option<seq<PermissionRequest>>)
    ensures var c := ManagePermission(accountID, accountAccessID, payload);
      var r := Prepared(json.encode, apiKey, userAgent, url, c);
      && r.Success? && r.value.body.None?
      && HeaderGet(r.value.header, "Content-Type") == "application/json"
      && Perform(json, server, apiKey, userAgent, url, c).value == Nil
  {
  }

  /** Different IDs address different resources and accesses. */
  lemma PathsIdentify(a: int, u: int, a': int, u': int, p: Option<seq<PermissionRequest>>)
    ensures GetResources(a).path == GetResources(a').path ==> a == a'
    ensures ManagePermission(a, u, p).path == ManagePermission(a', u', p).path ==> a == a' && u == u'
  {
    if GetResources(a).path == GetResources(a').path {
      assert Separated(GetResourcesEndpoint);
      FormatInjective(GetResourcesEndpoint, [a], [a']);
    }
    if ManagePermission(a, u, p).path == ManagePermission(a', u', p).path {
      assert Separated(UpdatePermissionEndpoint);
      FormatInjective(UpdatePermissionEndpoint, [a, u], [a', u']);
    }
  }
}
