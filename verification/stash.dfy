/** The Stash (Bitbucket Server) pull-request provider: credentials, REST
    addresses, and the extraction of PR data from the two JSON replies. */
module Stash {
  import opened Wrappers
  import opened Text
  import opened Json

  /** The provider a service name selects. */
  datatype Provider = StashProvider

  datatype StashError =
    | TokenMissing                // STASH_HTTP_ACCESS_TOKEN is not in the environment
    | NotImplemented(msg: string) // the requested service has no provider yet
    | MissingField(path: string)  // a subscript on a JSON reply raised

  /** Service dispatch in `main`: Stash and Bitbucket share one provider,
      every other service (GitHub, manual entry) is not implemented. */
  function SelectProvider(service: string): (r: Result<Provider, StashError>)
    ensures r.Success? <==> service == "stash" || service == "bitbucket"
    ensures service == "github" ==> r == Failure(NotImplemented("GitHub is not implemented yet"))
    ensures r.Failure? && service != "github" ==> r == Failure(NotImplemented("Manual mode is not implemented yet"))
  {
    if service in {"stash", "bitbucket"} then Success(StashProvider)
    else if service == "github" then Failure(NotImplemented("GitHub is not implemented yet"))
    else Failure(NotImplemented("Manual mode is not implemented yet"))
  }

  /** A configured client for one pull request. */
  datatype StashApi = StashApi(token: string, baseUrl: string, projectKey: string, repoSlug: string, prId: int)

  /** The constructor reads the access token from the environment (passed in
      here); an absent entry raises before any request is made. */
  function NewStashApi(token: Option<string>, baseUrl: string, projectKey: string, repoSlug: string, prId: int)
    : (r: Result<StashApi, StashError>)
    ensures r.Failure? <==> token.None?
    ensures r.Failure? ==> r.error == TokenMissing
    ensures r.Success? ==> r.value == StashApi(token.value, baseUrl, projectKey, repoSlug, prId)
  {
    match token
    case None => Failure(TokenMissing)
    case Some(t) => Success(StashApi(t, baseUrl, projectKey, repoSlug, prId))
  }

  /** The request headers: bearer authorisation and a JSON `Accept`. */
  function Headers(api: StashApi): (hs: seq<(string, string)>)
    ensures |hs| == 2
    ensures hs[0].0 == "Authorization" && "Bearer " <= hs[0].1 && hs[0].1[7..] == api.token
    ensures hs[1] == ("Accept", "application/json")
  {
    [("Authorization", "Bearer " + api.token), ("Accept", "application/json")]
  }

  function PullRequestsPrefix(api: StashApi): (prefix: string) {
    "http://" + api.baseUrl + "/rest/api/latest/projects/" + api.projectKey
      + "/repos/" + api.repoSlug + "/pull-requests/"
  }

  /** Address of the pull request's metadata. */
  function InfoUrl(api: StashApi): (url: string)
    ensures PullRequestsPrefix(api) <= url
    ensures url[|PullRequestsPrefix(api)|..] == IntToString(api.prId)
  {
    PullRequestsPrefix(api) + IntToString(api.prId)
  }

  /** Address of the pull request's diff summary: the metadata address plus `/diff`. */
  function DiffUrl(api: StashApi): (url: string)
    ensures InfoUrl(api) <= url && url[|InfoUrl(api)|..] == "/diff"
  {
    InfoUrl(api) + "/diff"
  }

  /** Two clients that differ only in the PR id never address the same pull request. */
  lemma InfoUrlDistinguishesPullRequests(api: StashApi, id: int)
    requires id != api.prId
    ensures InfoUrl(api) != InfoUrl(api.(prId := id))
    ensures DiffUrl(api) != DiffUrl(api.(prId := id))
  {
    var other := api.(prId := id);
    assert PullRequestsPrefix(other) == PullRequestsPrefix(api);
    if IntToString(api.prId) == IntToString(id) {
      IntToStringInjective(api.prId, id);
    }
    var u, v := DiffUrl(api), DiffUrl(other);
    assert u[..|u| - 5] == InfoUrl(api);
    assert v[..|v| - 5] == InfoUrl(other);
  }

  /** What `get_data` returns. Values are kept as decoded JSON, unconverted. */
  datatype PrData = PrData(toCommit: Json, fromCommit: Json, title: Json, description: Json, link: Json)

  const LinkPath: seq<Step> := [Key("links"), Key("self"), At(0), Key("href")]

  /** `get_data`: reads `toHash`, `fromHash`, `title`, `description` and
      `links.self[0].href`, in that order; only a missing description is
      tolerated, and it becomes the empty string. */
  function GetData(info: Json, diff: Json): (r: Result<PrData, StashError>)
    ensures r.Success? <==>
      && Field(diff, "toHash").Some? && Field(diff, "fromHash").Some?
      && Field(info, "title").Some? && Lookup(info, LinkPath).Some?
    ensures r.Success? ==>
      && r.value.toCommit == Field(diff, "toHash").value
      && r.value.fromCommit == Field(diff, "fromHash").value
      && r.value.title == Field(info, "title").value
      && r.value.link == Lookup(info, LinkPath).value
      && r.value.description == (if "description" in info.fields then info.fields["description"] else JString(""))
    ensures Field(diff, "toHash").None? ==> r == Failure(MissingField("toHash"))
    ensures Field(diff, "toHash").Some? && Field(diff, "fromHash").None? ==> r == Failure(MissingField("fromHash"))
    ensures Field(diff, "toHash").Some? && Field(diff, "fromHash").Some? && Field(info, "title").None? ==>
      r == Failure(MissingField("title"))
    ensures (Field(diff, "toHash").Some? && Field(diff, "fromHash").Some? && Field(info, "title").Some? &&
             Lookup(info, LinkPath).None?) ==> r == Failure(MissingField("links.self[0].href"))
  {
    match (Field(diff, "toHash"), Field(diff, "fromHash"))
    case (None, _) => Failure(MissingField("toHash"))
    case (_, None) => Failure(MissingField("fromHash"))
    case (Some(toCommit), Some(fromCommit)) =>
      match Field(info, "title")
      case None => Failure(MissingField("title"))
      case Some(title) =>
        var description := match Field(info, "description") case Some(d) => d case None => JString("");
        match Lookup(info, LinkPath)
        case None => Failure(MissingField("links.self[0].href"))
        case Some(link) => Success(PrData(toCommit, fromCommit, title, description, link))
  }

  /** Adding or removing the description never changes whether `get_data`
      succeeds, only the description it reports. */
  lemma DescriptionIsOptional(fields: map<string, Json>, diff: Json, d: Json)
    requires "description" !in fields
    ensures GetData(JObject(fields), diff).Success? <==> GetData(JObject(fields["description" := d]), diff).Success?
    ensures GetData(JObject(fields), diff).Success? ==>
      GetData(JObject(fields), diff).value.description == JString("") &&
      GetData(JObject(fields["description" := d]), diff).value.description == d
  {
  }
}
