/**
 * The web client's settings store: the panel form (port, listen address, web
 * root, certificate paths), the credential form, saving the panel
 * configuration with its web-root normalisation and redirect address, and
 * the credential change with its checks. Dialogs, the backend calls and the
 * page redirect are parameters or results.
 */
module SettingStore {
  import opened Wrappers
  import opened Text
  import opened Inbound
  import Startup
  import ApiClient

  datatype PanelConfig = PanelConfig(listenIp: string, port: int, webRoot: string, sslCertPath: string, sslKeyPath: string)

  datatype AuthForm = AuthForm(oldUsername: string, oldPassword: string, newUsername: string, newPassword: string)

  const EmptyAuth: AuthForm := AuthForm("", "", "", "")

  /** A partial panel update: only the supplied fields change. */
  datatype PanelUpdate = PanelUpdate(
    port: Option<JsNumber>,
    listenIp: Option<string>,
    webRoot: Option<string>,
    sslCertPath: Option<string>,
    sslKeyPath: Option<string>)

  /** A partial credential update, merged over the form. */
  datatype AuthUpdate = AuthUpdate(
    oldUsername: Option<string>,
    oldPassword: Option<string>,
    newUsername: Option<string>,
    newPassword: Option<string>)

  /** `/^[a-zA-Z0-9]+$/`: non-empty and ASCII letters and digits only. */
  predicate Alphanumeric(s: string) {
    s != [] && forall i :: 0 <= i < |s| ==> IsAlnum(s[i])
  }

  // ---------------------------------------------------------------- web root

  predicate NoDoubleSlash(s: string) {
    forall i :: 0 <= i < |s| - 1 ==> !(s[i] == '/' && s[i + 1] == '/')
  }

  /** `s.replace(/\/+/g, '/')`: every run of '/' becomes one. */
  function CollapseSlashes(s: string): (r: string)
    ensures |r| <= |s|
    ensures s != [] ==> r != [] && r[0] == s[0] && r[|r| - 1] == s[|s| - 1]
    ensures NoDoubleSlash(r)
    ensures NoDoubleSlash(s) ==> r == s
    decreases |s|
  {
    if |s| < 2 then s
    else if s[0] == '/' && s[1] == '/' then CollapseSlashes(s[1..])
    else
      var tail := CollapseSlashes(s[1..]);
      assert NoDoubleSlash(s) ==> NoDoubleSlash(s[1..]) by {
        if NoDoubleSlash(s) {
          forall i | 0 <= i < |s[1..]| - 1 ensures !(s[1..][i] == '/' && s[1..][i + 1] == '/') {
            assert s[1..][i] == s[i + 1] && s[1..][i + 1] == s[i + 2];
          }
        }
      }
      [s[0]] + tail
  }

  /** A '/' put in front when the text does not start with one. */
  function LeadSlash(s: string): (r: string)
    ensures StartsWith(r, "/")
    ensures StartsWith(s, "/") ==> r == s
    ensures NoDoubleSlash(s) ==> NoDoubleSlash(r)
  {
    if StartsWith(s, "/") then s
    else
      var r := "/" + s;
      assert NoDoubleSlash(s) ==> NoDoubleSlash(r) by {
        if NoDoubleSlash(s) {
          forall i | 0 <= i < |r| - 1 ensures !(r[i] == '/' && r[i + 1] == '/') {
            if i > 0 {
              assert r[i] == s[i - 1] && r[i + 1] == s[i];
            }
          }
        }
      }
      r
  }

  /** A '/' put at the end of a rooted path longer than "/" that lacks one. */
  function TrailSlash(s: string): (r: string)
    requires StartsWith(s, "/") && NoDoubleSlash(s)
    ensures StartsWith(r, "/") && EndsWith(r, "/") && NoDoubleSlash(r)
    ensures EndsWith(s, "/") ==> r == s
  {
    if |s| > 1 && !EndsWith(s, "/") then
      var r := s + "/";
      assert r[..1] == s[..1];
      assert forall i :: 0 <= i < |s| ==> r[i] == s[i];
      r
    else
      assert |s| == 1 ==> s == "/";
      s
  }

  /** The web root `savePanelConfig` stores and sends. */
  function PanelRoot(raw: string): (root: string)
    ensures StartsWith(root, "/") && EndsWith(root, "/")
    ensures NoDoubleSlash(root)
  {
    TrailSlash(LeadSlash(CollapseSlashes(TrimJs(raw))))
  }

  /** The same normalisation as the save handler performs it, one step at a time. */
  method NormalizeWebRoot(raw: string) returns (root: string)
    ensures root == PanelRoot(raw)
  {
    root := TrimJs(raw);
    root := CollapseSlashes(root);
    if !StartsWith(root, "/") {
      root := "/" + root;
    }
    if |root| > 1 && !EndsWith(root, "/") {
      root := root + "/";
    }
  }

  /** A root that is already normal is stored as it is; so normalising twice changes nothing. */
  lemma PanelRootIdempotent(raw: string)
    ensures PanelRoot(PanelRoot(raw)) == PanelRoot(raw)
  {
    var r := PanelRoot(raw);
    assert r[0] == '/' && r[|r| - 1] == '/';
    TrimOfTrimmed(r, IsJsWhitespace);
    assert TrimJs(r) == r;
  }

  /** The empty root and "/" both mean the top. */
  lemma BlankRootIsTop(raw: string)
    requires raw == "" || raw == "/"
    ensures PanelRoot(raw) == "/"
  {
    if raw == "/" {
      TrimOfTrimmed(raw, IsJsWhitespace);
    }
  }

  /** The backend keeps a saved root as it is and serves the panel under it. */
  lemma SavedRootServedAsIs(raw: string)
    ensures Startup.NormalisedRoot(PanelRoot(raw)) == PanelRoot(raw)
  {
  }

  /** Where the page goes once the backend accepted the new configuration. */
  function RedirectUrl(protocol: string, hostname: string, port: int, root: string): (url: string)
    ensures StartsWith(url, protocol + "//" + hostname + ":")
  {
    var head := protocol + "//" + hostname + ":";
    var url := head + NumberToString(Num(port)) + root;
    assert url[..|head|] == head;
    url
  }

  /** The page address is made of the parts it came from: the root is the part after the port. */
  lemma RedirectUrlEndsWithRoot(protocol: string, hostname: string, port: int, raw: string)
    ensures EndsWith(RedirectUrl(protocol, hostname, port, PanelRoot(raw)), PanelRoot(raw))
  {
    var url := RedirectUrl(protocol, hostname, port, PanelRoot(raw));
    assert url[|url| - |PanelRoot(raw)|..] == PanelRoot(raw);
  }

  // ---------------------------------------------------------------- outcomes

  /** What saving the panel configuration led to. */
  datatype SaveOutcome =
    | InvalidPort
    | ConfigWriteFailed(root: string)
    | Redirecting(root: string, url: string)

  /** Why a credential change was refused, in the order the checks run. */
  datatype AuthRejection = BadNewUsername | BadNewPassword | SameUsername | MissingOldUsername | MissingOldPassword

  /** The body of the credential update request. */
  datatype CredentialsRequest = CredentialsRequest(oldUsername: string, oldPassword: string, newUsername: string, newPassword: string)

  datatype AuthOutcome =
    | Rejected(reason: AuthRejection)
    | Cancelled
    | UpdateFailed(request: CredentialsRequest, message: string)
    | Updated(request: CredentialsRequest)

  const DefaultUpdateFailure: string := "原用户名或密码错误"

  /** The checks made before the confirmation dialog opens. */
  function PreConfirmCheck(auth: AuthForm): (r: Option<AuthRejection>)
    ensures r == Some(BadNewUsername) <==> auth.newUsername != [] && !Alphanumeric(auth.newUsername)
    ensures r == Some(BadNewPassword) <==>
      (auth.newUsername == [] || Alphanumeric(auth.newUsername))
      && auth.newPassword != [] && !Alphanumeric(auth.newPassword)
    ensures r == Some(SameUsername) <==>
      (auth.newUsername == [] || Alphanumeric(auth.newUsername))
      && (auth.newPassword == [] || Alphanumeric(auth.newPassword))
      && auth.newUsername != [] && auth.newUsername == auth.oldUsername && auth.newPassword == []
    ensures r.None? <==>
      (auth.newUsername == [] || Alphanumeric(auth.newUsername))
      && (auth.newPassword == [] || Alphanumeric(auth.newPassword))
      && !(auth.newUsername != [] && auth.newUsername == auth.oldUsername && auth.newPassword == [])
    ensures r != Some(MissingOldUsername) && r != Some(MissingOldPassword)
  {
    if auth.newUsername != [] && !Alphanumeric(auth.newUsername) then Some(BadNewUsername)
    else if auth.newPassword != [] && !Alphanumeric(auth.newPassword) then Some(BadNewPassword)
    else if auth.newUsername != [] && auth.newUsername == auth.oldUsername && auth.newPassword == [] then Some(SameUsername)
    else None
  }

  /** The request sent: an empty new name or password keeps the old one, and the name falls back to "admin". */
  function RequestFor(auth: AuthForm): (req: CredentialsRequest)
    ensures req.oldUsername == auth.oldUsername && req.oldPassword == auth.oldPassword
    ensures auth.newUsername != [] ==> req.newUsername == auth.newUsername
    ensures auth.newUsername == [] && auth.oldUsername != [] ==> req.newUsername == auth.oldUsername
    ensures auth.newUsername == [] && auth.oldUsername == [] ==> req.newUsername == "admin"
    ensures req.newPassword == if auth.newPassword != [] then auth.newPassword else auth.oldPassword
  {
    var finalUsername := if auth.newUsername != [] then auth.newUsername
      else if auth.oldUsername != [] then auth.oldUsername else "admin";
    var finalPassword := if auth.newPassword != [] then auth.newPassword else auth.oldPassword;
    CredentialsRequest(auth.oldUsername, auth.oldPassword, finalUsername, finalPassword)
  }

  /** The store's state. */
  class SettingStore {
    var panel: PanelConfig
    var auth: AuthForm
    var savedPanel: Option<PanelConfig>

    /** The initial panel is read from the page: its port (or the scheme's default) and the injected root. */
    constructor(initialPanel: PanelConfig)
      ensures panel == initialPanel && auth == EmptyAuth && savedPanel.None?
    {
      panel := initialPanel;
      auth := EmptyAuth;
      savedPanel := None;
    }

    /** `updatePanel`: each supplied field replaces its value; the port is `Number(x) || 0`. */
    method UpdatePanel(data: PanelUpdate)
      modifies this
      ensures panel.port == (if data.port.None? then old(panel.port) else if Truthy(data.port.value) then data.port.value.n else 0)
      ensures panel.listenIp == data.listenIp.GetOr(old(panel.listenIp))
      ensures panel.webRoot == data.webRoot.GetOr(old(panel.webRoot))
      ensures panel.sslCertPath == data.sslCertPath.GetOr(old(panel.sslCertPath))
      ensures panel.sslKeyPath == data.sslKeyPath.GetOr(old(panel.sslKeyPath))
      ensures auth == old(auth) && savedPanel == old(savedPanel)
    {
      var next := panel;
      if data.port.Some? {
        next := next.(port := if Truthy(data.port.value) then data.port.value.n else 0);
      }
      if data.listenIp.Some? {
        next := next.(listenIp := data.listenIp.value);
      }
      if data.webRoot.Some? {
        next := next.(webRoot := data.webRoot.value);
      }
      if data.sslCertPath.Some? {
        next := next.(sslCertPath := data.sslCertPath.value);
      }
      if data.sslKeyPath.Some? {
        next := next.(sslKeyPath := data.sslKeyPath.value);
      }
      panel := next;
    }

    /** `updateAuth`: the supplied fields are merged over the form. */
    method UpdateAuth(data: AuthUpdate)
      modifies this
      ensures auth == AuthForm(
        data.oldUsername.GetOr(old(auth.oldUsername)), data.oldPassword.GetOr(old(auth.oldPassword)),
        data.newUsername.GetOr(old(auth.newUsername)), data.newPassword.GetOr(old(auth.newPassword)))
      ensures panel == old(panel) && savedPanel == old(savedPanel)
    {
      auth := AuthForm(
        data.oldUsername.GetOr(auth.oldUsername), data.oldPassword.GetOr(auth.oldPassword),
        data.newUsername.GetOr(auth.newUsername), data.newPassword.GetOr(auth.newPassword));
    }

    /** The normalised root written back into the form and recorded as saved. */
    method StoreWebRoot(root: string)
      modifies this
      ensures panel == old(panel).(webRoot := root) && savedPanel == Some(panel)
      ensures auth == old(auth)
    {
      panel := panel.(webRoot := root);
      savedPanel := Some(panel);
    }

    /**
     * `savePanelConfig`: a port outside 1..65535 is refused with nothing
     * changed; otherwise panel and saved panel both take the normalised root,
     * and once the backend accepted it the page is sent to the new address.
     */
    method SavePanelConfig(backendAccepts: bool, protocol: string, hostname: string) returns (outcome: SaveOutcome)
      modifies this
      ensures !(1 <= old(panel.port) <= 65535) <==> outcome.InvalidPort?
      ensures outcome.InvalidPort? ==> panel == old(panel) && savedPanel == old(savedPanel)
      ensures !outcome.InvalidPort? ==>
        panel == old(panel).(webRoot := PanelRoot(old(panel.webRoot))) && savedPanel == Some(panel)
      ensures outcome.ConfigWriteFailed? <==> !outcome.InvalidPort? && !backendAccepts
      ensures outcome.Redirecting? ==>
        outcome.url == RedirectUrl(protocol, hostname, old(panel.port), PanelRoot(old(panel.webRoot)))
      ensures auth == old(auth)
    {
      if panel.port < 1 || panel.port > 65535 {
        return InvalidPort;
      }
      var normalized := NormalizeWebRoot(panel.webRoot);
      StoreWebRoot(normalized);
      if !backendAccepts {
        outcome := ConfigWriteFailed(normalized);
      } else {
        var url := RedirectUrl(protocol, hostname, panel.port, normalized);
        outcome := Redirecting(normalized, url);
      }
    }

    /**
     * `confirmUpdateAuth` and its confirmation callback: the format and
     * same-name checks, the user's answer, the old-credential checks, then
     * the request; success clears the form and ends the session.
     */
    method ConfirmUpdateAuth(session: ApiClient.Session, confirmed: bool, response: Option<Option<string>>)
      returns (outcome: AuthOutcome)
      modifies this, session
      ensures PreConfirmCheck(old(auth)).Some? ==> outcome == Rejected(PreConfirmCheck(old(auth)).value)
      ensures PreConfirmCheck(old(auth)).None? && !confirmed ==> outcome == Cancelled
      ensures outcome.UpdateFailed? || outcome.Updated? ==>
        old(auth.oldUsername) != [] && old(auth.oldPassword) != [] && outcome.request == RequestFor(old(auth))
      ensures outcome.Updated? <==> (PreConfirmCheck(old(auth)).None? && confirmed
        && old(auth.oldUsername) != [] && old(auth.oldPassword) != [] && response.None?)
      ensures outcome.Updated? ==> auth == EmptyAuth && !session.isAuthenticated && session.token.None?
      ensures !outcome.Updated? ==> session.isAuthenticated == old(session.isAuthenticated) && session.token == old(session.token)
      ensures !outcome.Updated? ==> auth == old(auth)
      ensures outcome.UpdateFailed? ==> outcome.message == StringOr(response.value, DefaultUpdateFailure)
      ensures panel == old(panel) && savedPanel == old(savedPanel)
    {
      var check := PreConfirmCheck(auth);
      if check.Some? {
        return Rejected(check.value);
      }
      if !confirmed {
        return Cancelled;
      }
      if auth.oldUsername == [] {
        return Rejected(MissingOldUsername);
      }
      if auth.oldPassword == [] {
        return Rejected(MissingOldPassword);
      }
      var request := RequestFor(auth);
      if response.Some? {
        return UpdateFailed(request, StringOr(response.value, DefaultUpdateFailure));
      }
      auth := EmptyAuth;
      session.Logout();
      return Updated(request);
    }
  }

  /** An empty new password never reaches the backend: the old one is sent again. */
  lemma PasswordOnlyChange(auth: AuthForm)
    requires auth.newUsername == [] && auth.oldUsername != []
    ensures RequestFor(auth).newUsername == auth.oldUsername
    ensures PreConfirmCheck(auth).None? <==> auth.newPassword == [] || Alphanumeric(auth.newPassword)
  {
  }
}
