/** The projects service of mailtrap/projects.go. */
module Projects {
  import opened Common
  import opened Transport

  /** The one body the service sends: {"project": {"name": ...}}. */
  datatype Payload = ProjectRequest(name: string)

  /** The types replies are decoded into: []*Project and *Project. */
  datatype Shape = ProjectList | Project

  // The path templates, as their literal parts around the `%d` verbs.
  const ProjectsParts := ["/accounts/", "/projects"]
  const ProjectParts := ["/accounts/", "/projects/", ""]

  function List(accountID: int): (c: Call<Payload, Shape>)
    ensures c.path == "/accounts/" + IntString(accountID) + "/projects"
    ensures c.verb == GET && c.payload.None? && c.accept.None? && c.dest == Typed(ProjectList)
  {
    Format1(ProjectsParts, accountID);
    Call(GET, Format(ProjectsParts, [accountID]), None, None, Typed(ProjectList))
  }

  function Get(accountID: int, projectID: int): (c: Call<Payload, Shape>)
    ensures c.path == "/accounts/" + IntString(accountID) + "/projects/" + IntString(projectID)
    ensures c.verb == GET && c.payload.None? && c.accept.None? && c.dest == Typed(Project)
  {
    Format2(ProjectParts, accountID, projectID);
    Call(GET, Format(ProjectParts, [accountID, projectID]), None, None, Typed(Project))
  }

  function Delete(accountID: int, projectID: int): (c: Call<Payload, Shape>)
    ensures c.path == "/accounts/" + IntString(accountID) + "/projects/" + IntString(projectID)
    ensures c.verb == DELETE && c.payload.None? && c.accept.None? && c.dest == Discard
  {
    Format2(ProjectParts, accountID, projectID);
    Call(DELETE, Format(ProjectParts, [accountID, projectID]), None, None, Discard)
  }

  function Update(accountID: int, projectID: int, name: string): (c: Call<Payload, Shape>)
    ensures c.path == "/accounts/" + IntString(accountID) + "/projects/" + IntString(projectID)
    ensures c.verb == PATCH && c.payload == Some(ProjectRequest(name))
    ensures c.accept.None? && c.dest == Typed(Project)
  {
    Format2(ProjectParts, accountID, projectID);
    Call(PATCH, Format(ProjectParts, [accountID, projectID]), Some(ProjectRequest(name)), None, Typed(Project))
  }

  function Create(accountID: int, name: string): (c: Call<Payload, Shape>)
    ensures c.path == "/accounts/" + IntString(accountID) + "/projects"
    ensures c.verb == POST && c.payload == Some(ProjectRequest(name))
    ensures c.accept.None? && c.dest == Typed(Project)
  {
    Format1(ProjectsParts, accountID);
    Call(POST, Format(ProjectsParts, [accountID]), Some(ProjectRequest(name)), None, Typed(Project))
  }

  /** Create and Update put {"project": {"name"}} on the wire, as JSON. */
  lemma NameIsSent(json: Json<Payload, Shape>, apiKey: string, userAgent: string, url: Url,
                   accountID: int, projectID: int, name: string)
    requires json.encode(ProjectRequest(name)).Some?
    ensures forall c :: c in {Create(accountID, name), Update(accountID, projectID, name)} ==>
      var r := Prepared(json.encode, apiKey, userAgent, url, c);
      r.Success? && r.value.body == json.encode(ProjectRequest(name))
      && HeaderGet(r.value.header, "Content-Type") == "application/json"
  {
  }

  /** Different IDs address different projects. */
  lemma PathsIdentify(a: int, p: int, a': int, p': int)
    ensures List(a).path == List(a').path ==> a == a'
    ensures Get(a, p).path == Get(a', p').path ==> a == a' && p == p'
  {
    if List(a).path == List(a').path {
      assert Separated(ProjectsParts);
      FormatInjective(ProjectsParts, [a], [a']);
    }
    if Get(a, p).path == Get(a', p').path {
      assert Separated(ProjectParts);
      FormatInjective(ProjectParts, [a, p], [a', p']);
    }
  }
}
