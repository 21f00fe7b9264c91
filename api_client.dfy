/**
 * The web client's shared request set-up: the base address computed from the
 * web root the server injected into the page, the Authorization header added
 * to each request, and the logout on a 401 answer. The session's token store
 * is the class `Session`; sending requests is outside the model.
 */
module ApiClient {
  import opened Wrappers
  import opened Text
  import Startup

  const LoginPath: string := "/auth/login"
  const UpdatePath: string := "/auth/update"

  /** The client's login state: `logout` forgets the token. */
  class Session {
    var isAuthenticated: bool
    var token: Option<string>

    constructor()
      ensures !isAuthenticated && token.None?
    {
      isAuthenticated := false;
      token := None;
    }

    method Login(t: string)
      modifies this
      ensures isAuthenticated && token == Some(t)
    {
      isAuthenticated, token := true, Some(t);
    }

    method Logout()
      modifies this
      ensures !isAuthenticated && token.None?
    {
      isAuthenticated, token := false, None;
    }
  }

  /** The root the page was served under; a missing, empty or unreplaced one means "/". */
  function InjectedRoot(injected: Option<string>): (root: string)
    ensures root != [] && root != Startup.Placeholder
    ensures injected.Some? && injected.value != [] && injected.value != Startup.Placeholder ==> root == injected.value
  {
    if injected.Some? && injected.value != [] && injected.value != Startup.Placeholder then injected.value else "/"
  }

  /** `getBaseURL`: the root with one '/' ensured at its end, then "api". */
  function BaseUrl(injected: Option<string>): (url: string)
    ensures EndsWith(url, "/api")
    ensures StartsWith(url, InjectedRoot(injected))
    ensures |url| <= |InjectedRoot(injected)| + 4
  {
    var root := InjectedRoot(injected);
    var normalized := if EndsWith(root, "/") then root else root + "/";
    var url := normalized + "api";
    assert url[..|root|] == root;
    assert url[|url| - 4..] == normalized[|normalized| - 1..] + "api";
    url
  }

  /** The root the backend puts into the page gives the API under that root. */
  lemma BaseUrlOfServedRoot(raw: string)
    ensures BaseUrl(Some(Startup.NormalisedRoot(raw))) == Startup.NormalisedRoot(raw) + "api"
  {
    var root := Startup.NormalisedRoot(raw);
    assert root[0] == '/' && Startup.Placeholder[0] == '{';
  }

  /** A page whose placeholder was never replaced talks to "/api". */
  lemma UnreplacedRootIsTop(injected: Option<string>)
    requires injected.None? || injected.value == Startup.Placeholder || injected.value == []
    ensures BaseUrl(injected) == "/api"
  {
  }

  /** Headers of an outgoing request. */
  class RequestConfig {
    var url: string
    var baseUrl: string
    var headers: map<string, string>

    constructor(url: string, headers: map<string, string>)
      ensures this.url == url && this.headers == headers && baseUrl == []
    {
      this.url := url;
      this.headers := headers;
      baseUrl := [];
    }

    /** The request interceptor: the base address always, the bearer token when one is set. */
    method InterceptRequest(injected: Option<string>, session: Session)
      modifies this
      ensures baseUrl == BaseUrl(injected) && url == old(url)
      ensures session.token.Some? && session.token.value != [] ==>
        headers == old(headers)["Authorization" := "Bearer " + session.token.value]
      ensures session.token.None? || session.token.value == [] ==> headers == old(headers)
    {
      baseUrl := BaseUrl(injected);
      var token := session.token;
      if token.Some? && token.value != [] {
        headers := headers["Authorization" := "Bearer " + token.value];
      }
    }
  }

  /** A 401 from anything but the login and credential-update calls ends the session. */
  predicate ShouldLogout(status: Option<int>, url: string): (r: bool)
    ensures status != Some(401) ==> !r
    ensures status == Some(401) && !Contains(url, "/auth/") ==> r
  {
    ContainsLonger(url, LoginPath, "/auth/");
    ContainsLonger(url, UpdatePath, "/auth/");
    status == Some(401) && !Contains(url, LoginPath) && !Contains(url, UpdatePath)
  }

  /** A text holding `sub` holds every prefix of it. */
  lemma ContainsLonger(s: string, sub: string, pre: string)
    requires StartsWith(sub, pre)
    ensures Contains(s, sub) ==> Contains(s, pre)
  {
    if Contains(s, sub) {
      var i := Find(s, sub).value;
      assert s[i..i + |pre|] == s[i..i + |sub|][..|pre|] == sub[..|pre|] == pre;
      assert OccursAt(s, pre, i);
      ContainsIffOccurs(s, pre);
    }
  }

  /** A failed request's answer: the error is always passed on to the caller. */
  datatype Rejection = Rejection(status: Option<int>, url: string)

  /** The response interceptor's error branch. */
  method OnResponseError(session: Session, status: Option<int>, url: Option<string>) returns (rejected: Rejection)
    modifies session
    ensures rejected == Rejection(status, url.GetOr(""))
    ensures ShouldLogout(status, url.GetOr("")) ==> !session.isAuthenticated && session.token.None?
    ensures !ShouldLogout(status, url.GetOr("")) ==>
      session.isAuthenticated == old(session.isAuthenticated) && session.token == old(session.token)
  {
    var u := url.GetOr("");
    if status == Some(401) {
      var isAuthEndpoint := Contains(u, LoginPath) || Contains(u, UpdatePath);
      if !isAuthEndpoint {
        session.Logout();
      }
    }
    rejected := Rejection(status, u);
  }

  /** A rejected login never logs out, whatever its status. */
  lemma LoginNeverLogsOut(prefix: string, status: Option<int>)
    ensures !ShouldLogout(status, prefix + LoginPath)
  {
    var u := prefix + LoginPath;
    assert OccursAt(u, LoginPath, |prefix|) by {
      assert u[|prefix|..|prefix| + |LoginPath|] == LoginPath;
    }
    ContainsIffOccurs(u, LoginPath);
  }
}
