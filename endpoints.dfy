/** The request helpers and the endpoint builders of agent.ts. A builder
    names the HTTP verb and the URL of its call; URLs are fixed prefixes and
    suffixes around the argument, with nothing encoded. Request bodies pass
    through unchanged and are not modelled. */
module Requests {
  datatype Verb = Get | Post | Put | Delete

  /** A call the gateway issues; `params` is the query object axios
      serialises (only the activity list passes one). */
  datatype ApiRequest = ApiRequest(verb: Verb, url: string, params: seq<(string, string)>)

  /** The `config.method` axios records for a verb. */
  function MethodName(v: Verb): (name: string)
    ensures name == "get" <==> v == Get
  {
    match v
    case Get => "get"
    case Post => "post"
    case Put => "put"
    case Delete => "delete"
  }

  /** `url` is `prefix`, then `arg`, then `suffix`. */
  predicate Surrounds(url: string, prefix: string, arg: string, suffix: string)
  {
    |url| == |prefix| + |arg| + |suffix| &&
    url[..|prefix|] == prefix &&
    url[|prefix|..|prefix| + |arg|] == arg &&
    url[|prefix| + |arg|..] == suffix
  }

  /** A fixed frame around one argument: different arguments give different
      URLs. */
  lemma SurroundsInjective(url1: string, url2: string, prefix: string, a1: string, a2: string, suffix: string)
    requires Surrounds(url1, prefix, a1, suffix) && Surrounds(url2, prefix, a2, suffix)
    requires url1 == url2
    ensures a1 == a2
  {
  }

  function Surround(prefix: string, arg: string, suffix: string): (url: string)
    ensures Surrounds(url, prefix, arg, suffix)
  {
    var url := prefix + arg + suffix;
    assert url[..|prefix|] == prefix;
    assert url[|prefix|..|prefix| + |arg|] == arg;
    assert url[|prefix| + |arg|..] == suffix;
    url
  }
}

/** `agent.Activities`. */
module Activities {
  import opened Requests

  const Root := "/activities"

  function List(params: seq<(string, string)>): (r: ApiRequest)
    ensures r.verb == Get && r.url == Root && r.params == params
  {
    ApiRequest(Get, Root, params)
  }

  function Details(id: string): (r: ApiRequest)
    ensures r.verb == Get && r.params == [] && Surrounds(r.url, Root + "/", id, "")
  {
    ApiRequest(Get, Surround(Root + "/", id, ""), [])
  }

  function Create(): (r: ApiRequest)
    ensures r.verb == Post && r.url == Root && r.params == []
  {
    ApiRequest(Post, Root, [])
  }

  /** `update(activity)` addresses the activity by its id. */
  function Update(activityId: string): (r: ApiRequest)
    ensures r.verb == Put && r.params == [] && Surrounds(r.url, Root + "/", activityId, "")
  {
    ApiRequest(Put, Surround(Root + "/", activityId, ""), [])
  }

  function Delete(id: string): (r: ApiRequest)
    ensures r.verb == Requests.Delete && r.params == [] && Surrounds(r.url, Root + "/", id, "")
  {
    ApiRequest(Requests.Delete, Surround(Root + "/", id, ""), [])
  }

  function Attend(id: string): (r: ApiRequest)
    ensures r.verb == Post && r.params == [] && Surrounds(r.url, Root + "/", id, "/attend")
  {
    ApiRequest(Post, Surround(Root + "/", id, "/attend"), [])
  }

  /** Details, update and delete address the same resource; attending
      appends `/attend` to it. */
  lemma SameResource(id: string)
    ensures Details(id).url == Update(id).url == Delete(id).url
    ensures Attend(id).url == Details(id).url + "/attend"
  {
  }

  /** Each activity has its own URL. */
  lemma DetailsInjective(id1: string, id2: string)
    requires Details(id1).url == Details(id2).url
    ensures id1 == id2
  {
    SurroundsInjective(Details(id1).url, Details(id2).url, Root + "/", id1, id2, "");
  }
}

/** `agent.Account`. */
module Account {
  import opened Requests

  function Current(): (r: ApiRequest)
    ensures r.verb == Get && r.url == "/account" && r.params == []
  {
    ApiRequest(Get, "/account", [])
  }

  /** The access token is put into the query string as it is. */
  function FbLogin(accessToken: string): (r: ApiRequest)
    ensures r.verb == Post && r.params == [] && Surrounds(r.url, "/account/fbLogin?accessToken=", accessToken, "")
  {
    ApiRequest(Post, Surround("/account/fbLogin?accessToken=", accessToken, ""), [])
  }

  function Login(): (r: ApiRequest)
    ensures r.verb == Post && r.url == "/account/login" && r.params == []
  {
    ApiRequest(Post, "/account/login", [])
  }

  function Logout(): (r: ApiRequest)
    ensures r.verb == Get && r.url == "/account/logout" && r.params == []
  {
    ApiRequest(Get, "/account/logout", [])
  }

  function Register(): (r: ApiRequest)
    ensures r.verb == Post && r.url == "/account/register" && r.params == []
  {
    ApiRequest(Post, "/account/register", [])
  }

  function RefreshToken(): (r: ApiRequest)
    ensures r.verb == Post && r.url == "/account/refreshToken" && r.params == []
  {
    ApiRequest(Post, "/account/refreshToken", [])
  }
}

/** `agent.Profiles` (the multipart photo upload left out). */
module Profiles {
  import opened Requests

  function DeletePhoto(id: string): (r: ApiRequest)
    ensures r.verb == Delete && r.params == [] && Surrounds(r.url, "/photos/", id, "")
  {
    ApiRequest(Delete, Surround("/photos/", id, ""), [])
  }

  function EditProfile(): (r: ApiRequest)
    ensures r.verb == Put && r.url == "/profiles" && r.params == []
  {
    ApiRequest(Put, "/profiles", [])
  }

  function Get(username: string): (r: ApiRequest)
    ensures r.verb == Requests.Get && r.params == [] && Surrounds(r.url, "/profiles/", username, "")
  {
    ApiRequest(Requests.Get, Surround("/profiles/", username, ""), [])
  }

  function ListFollowings(username: string, filter: string): (r: ApiRequest)
    ensures r.verb == Requests.Get && r.params == []
    ensures Surrounds(r.url, "/follow/", username + "?predicate=" + filter, "")
  {
    ApiRequest(Requests.Get, Surround("/follow/", username + "?predicate=" + filter, ""), [])
  }

  function ListUserActivities(username: string, filter: string): (r: ApiRequest)
    ensures r.verb == Requests.Get && r.params == []
    ensures Surrounds(r.url, "/profiles/", username, "/activities?predicate=" + filter)
  {
    ApiRequest(Requests.Get, Surround("/profiles/", username, "/activities?predicate=" + filter), [])
  }

  function SetMainPhoto(id: string): (r: ApiRequest)
    ensures r.verb == Post && r.params == [] && Surrounds(r.url, "/photos/", id, "/setmain")
  {
    ApiRequest(Post, Surround("/photos/", id, "/setmain"), [])
  }

  function UpdateFollowing(username: string): (r: ApiRequest)
    ensures r.verb == Post && r.params == [] && Surrounds(r.url, "/follow/", username, "")
  {
    ApiRequest(Post, Surround("/follow/", username, ""), [])
  }

  /** Following someone and listing whom they follow use one resource; the
      listing adds the predicate as a query. */
  lemma FollowResource(username: string, filter: string)
    ensures ListFollowings(username, filter).url == UpdateFollowing(username).url + "?predicate=" + filter
  {
  }

  /** Because nothing is escaped, a username that itself contains
      `?predicate=` reaches the same URL as a different pair of arguments. */
  lemma ListFollowingsAmbiguous()
    ensures ListFollowings("a?predicate=b", "c").url == ListFollowings("a", "b?predicate=c").url
  {
  }
}
