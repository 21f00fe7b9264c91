/**
 * The settings page: the input filters on the web-root and user-name fields,
 * the blur handlers, the per-field format errors of the credential form, and
 * the save button's dispatch by tab. Rendering and translation are outside
 * the model; an error message is its translation key.
 */
module SettingsPage {
  import opened Wrappers
  import opened Text
  import opened Inbound
  import opened SettingStore
  import ApiClient

  /** `s.replace(/[^…]/g, '')`: the characters `keep` accepts, in order. */
  function Filter(s: string, keep: char -> bool): (r: string)
    ensures |r| <= |s|
    ensures forall i :: 0 <= i < |r| ==> keep(r[i])
    ensures (forall i :: 0 <= i < |s| ==> keep(s[i])) ==> r == s
    decreases |s|
  {
    if s == [] then []
    else
      var rest := Filter(s[..|s| - 1], keep);
      if keep(s[|s| - 1]) then rest + [s[|s| - 1]] else rest
  }

  /** Filtering text piece by piece gives the filtered whole. */
  lemma {:induction false} FilterAppend(a: string, b: string, keep: char -> bool)
    ensures Filter(a + b, keep) == Filter(a, keep) + Filter(b, keep)
    decreases |b|
  {
    if b == [] {
      assert a + b == a;
    } else {
      var b' := b[..|b| - 1];
      assert (a + b)[..|a + b| - 1] == a + b';
      FilterAppend(a, b', keep);
    }
  }

  /** Whatever the user types, a filtered field keeps exactly the characters it accepts. */
  lemma {:induction false} FilterKeepsAccepted(s: string, keep: char -> bool, c: char)
    ensures c in Filter(s, keep) <==> c in s && keep(c)
    decreases |s|
  {
    if s != [] {
      FilterKeepsAccepted(s[..|s| - 1], keep, c);
      assert s == s[..|s| - 1] + [s[|s| - 1]];
    }
  }

  /** Filtering what was already filtered changes nothing. */
  lemma FilterIdempotent(s: string, keep: char -> bool)
    ensures Filter(Filter(s, keep), keep) == Filter(s, keep)
  {
  }

  /** Characters the web-root field accepts: letters, digits, '/', '_', '-' and '.'. */
  predicate WebRootChar(c: char) { IsAlnum(c) || c == '/' || c == '_' || c == '-' || c == '.' }

  /** Characters the user-name fields accept. */
  predicate UsernameChar(c: char) { IsAlnum(c) }

  const DefaultWebRoot: string := "/panel/"

  /** A filtered user name that is not empty passes the store's format check. */
  lemma FilteredUsernameAlphanumeric(typed: string)
    requires Filter(typed, UsernameChar) != []
    ensures Alphanumeric(Filter(typed, UsernameChar))
  {
  }

  datatype ErrorField = NewUsername | NewPassword

  const AlphanumericError: string := "settings.errors.alphanumeric"

  /** The error a field shows after losing focus: none when empty or alphanumeric. */
  function FieldError(value: string): (e: Option<string>)
    ensures e.None? <==> value == [] || Alphanumeric(value)
    ensures e.Some? ==> e.value == AlphanumericError
  {
    if value == [] then None
    else if Alphanumeric(value) then None
    else Some(AlphanumericError)
  }

  /** What pressing the save button did. */
  datatype SaveAction =
    | PanelSaved(panel: SaveOutcome)
    | AuthSubmitted(auth: AuthOutcome)
    | NothingToSave

  const PanelTab: string := "panel"
  const UserTab: string := "user"
  const BackupTab: string := "backup"

  class SettingsPage {
    const store: SettingStore
    var activeTab: string
    /** The visible format errors: a field without an entry shows none. */
    var errors: map<ErrorField, string>

    constructor(store: SettingStore)
      ensures this.store == store && activeTab == PanelTab && errors == map[]
    {
      this.store := store;
      activeTab := PanelTab;
      errors := map[];
    }

    /** `validateField`: the field's error is set or cleared; the other field's is kept. */
    method ValidateField(field: ErrorField, value: string)
      modifies this
      ensures field in errors <==> FieldError(value).Some?
      ensures field in errors ==> errors[field] == AlphanumericError
      ensures forall f :: f != field ==> (f in errors <==> f in old(errors)) && (f in old(errors) ==> errors[f] == old(errors)[f])
      ensures activeTab == old(activeTab)
    {
      if value == [] {
        errors := errors - {field};
        return;
      }
      if !Alphanumeric(value) {
        errors := errors[field := AlphanumericError];
      } else {
        errors := errors - {field};
      }
    }

    method SelectTab(tab: string)
      modifies this
      ensures activeTab == tab && errors == old(errors)
    {
      activeTab := tab;
    }

    /** The web-root input: only the accepted characters reach the form. */
    method OnWebRootInput(typed: string)
      modifies store
      ensures store.panel == old(store.panel).(webRoot := Filter(typed, WebRootChar))
      ensures store.auth == old(store.auth) && store.savedPanel == old(store.savedPanel)
    {
      store.UpdatePanel(PanelUpdate(None, None, Some(Filter(typed, WebRootChar)), None, None));
    }

    /** Leaving the web-root field blank puts the default root back. */
    method OnWebRootBlur(value: string)
      modifies store
      ensures TrimJs(value) == [] ==> store.panel == old(store.panel).(webRoot := DefaultWebRoot)
      ensures TrimJs(value) != [] ==> store.panel == old(store.panel)
      ensures store.auth == old(store.auth) && store.savedPanel == old(store.savedPanel)
    {
      if TrimJs(value) == [] {
        store.UpdatePanel(PanelUpdate(None, None, Some(DefaultWebRoot), None, None));
      }
    }

    /** The port input: `Number(value)` stored, NaN and zero as 0. */
    method OnPortInput(typed: string)
      modifies store
      ensures store.panel == old(store.panel).(port := if Truthy(ToNumber(typed)) then ToNumber(typed).n else 0)
      ensures store.auth == old(store.auth) && store.savedPanel == old(store.savedPanel)
    {
      store.UpdatePanel(PanelUpdate(Some(ToNumber(typed)), None, None, None, None));
    }

    /** The old and new user-name inputs drop everything but letters and digits. */
    method OnUsernameInput(isNew: bool, typed: string)
      modifies store
      ensures isNew ==> store.auth == old(store.auth).(newUsername := Filter(typed, UsernameChar))
      ensures !isNew ==> store.auth == old(store.auth).(oldUsername := Filter(typed, UsernameChar))
      ensures store.panel == old(store.panel) && store.savedPanel == old(store.savedPanel)
    {
      var value := Filter(typed, UsernameChar);
      if isNew {
        store.UpdateAuth(AuthUpdate(None, None, Some(value), None));
      } else {
        store.UpdateAuth(AuthUpdate(Some(value), None, None, None));
      }
    }

    /** `handleSave`: the panel tab saves the panel, the user tab the credentials, any other tab nothing. */
    method HandleSave(session: ApiClient.Session, backendAccepts: bool, protocol: string, hostname: string,
                      confirmed: bool, response: Option<Option<string>>) returns (action: SaveAction)
      modifies store, session
      ensures old(activeTab) == PanelTab <==> action.PanelSaved?
      ensures old(activeTab) == UserTab <==> action.AuthSubmitted?
      ensures action.NothingToSave? ==>
        store.panel == old(store.panel) && store.auth == old(store.auth) && store.savedPanel == old(store.savedPanel)
      ensures action.AuthSubmitted? ==> store.panel == old(store.panel) && store.savedPanel == old(store.savedPanel)
      ensures action.PanelSaved? ==> store.auth == old(store.auth)
      ensures action.PanelSaved? ==> (action.panel.InvalidPort? <==> !(1 <= old(store.panel.port) <= 65535))
      ensures action.AuthSubmitted? ==> (action.auth.Updated? ==> store.auth == EmptyAuth && session.token.None?)
      ensures !action.AuthSubmitted? ==> session.token == old(session.token)
    {
      if activeTab == PanelTab {
        var outcome := store.SavePanelConfig(backendAccepts, protocol, hostname);
        action := PanelSaved(outcome);
      } else if activeTab == UserTab {
        var outcome := store.ConfirmUpdateAuth(session, confirmed, response);
        action := AuthSubmitted(outcome);
      } else {
        action := NothingToSave;
      }
    }
  }
}
