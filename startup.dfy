/**
 * The backend's start-up decisions: which command-line action runs, how the
 * WEB_ROOT setting is normalised and where the router is mounted, which
 * directory the web assets are served from, and how the web root is put into
 * index.html. Environment variables, the file system and the process
 * arguments are parameters.
 */
module Startup {
  import opened Wrappers
  import opened Text

  // ---------------------------------------------------------------- command line

  datatype CliAction =
    | ShowHelp
    | ResetAdmin
    | SetCredentials(user: string, password: string)
    | StartServer

  /** Index of the first argument equal to either spelling of a flag. */
  function FirstFlag(args: seq<string>, long: string, short: string): (r: Option<nat>)
    ensures r.Some? ==> r.value < |args| && (args[r.value] == long || args[r.value] == short)
    ensures r.Some? ==> forall j :: 0 <= j < r.value ==> args[j] != long && args[j] != short
    ensures r.None? <==> long !in args && short !in args
    decreases |args|
  {
    if args == [] then None
    else if args[0] == long || args[0] == short then Some(0)
    else match FirstFlag(args[1..], long, short)
      case None => None
      case Some(i) => Some(i + 1)
  }

  /** The value following a flag's first occurrence, when there is one. */
  function FlagValue(args: seq<string>, long: string, short: string): (v: Option<string>)
    ensures v.Some? ==> exists i :: 0 <= i < |args| - 1 && args[i + 1] == v.value && (args[i] == long || args[i] == short)
  {
    match FirstFlag(args, long, short)
    case None => None
    case Some(i) => if i + 1 < |args| then Some(args[i + 1]) else None
  }

  /**
   * What the process does with its arguments (the program name included):
   * help first, then the admin reset, then the credential update when both
   * flags carry a value, and otherwise the normal start.
   */
  function ChooseAction(args: seq<string>): (a: CliAction)
    ensures a.ShowHelp? <==> |args| > 1 && ("--help" in args || "-h" in args)
    ensures a.ResetAdmin? <==>
      |args| > 1 && "--help" !in args && "-h" !in args && ("--reset" in args || "-r" in args)
    ensures a.SetCredentials? <==>
      |args| > 1 && "--help" !in args && "-h" !in args && "--reset" !in args && "-r" !in args
      && FlagValue(args, "--user", "-u").Some? && FlagValue(args, "--password", "-p").Some?
    ensures a.SetCredentials? ==>
      a == SetCredentials(FlagValue(args, "--user", "-u").value, FlagValue(args, "--password", "-p").value)
    ensures a.StartServer? <==>
      |args| <= 1
      || ("--help" !in args && "-h" !in args && "--reset" !in args && "-r" !in args
          && (FlagValue(args, "--user", "-u").None? || FlagValue(args, "--password", "-p").None?))
  {
    if |args| <= 1 then StartServer
    else if "--help" in args || "-h" in args then ShowHelp
    else if "--reset" in args || "-r" in args then ResetAdmin
    else match FlagValue(args, "--user", "-u")
      case None => StartServer
      case Some(user) =>
        match FlagValue(args, "--password", "-p")
        case None => StartServer
        case Some(password) => SetCredentials(user, password)
  }

  /** A user name without a password (or the other way round) leaves the server to start normally. */
  lemma {:induction false} HalfCredentialsStart(args: seq<string>)
    requires "--help" !in args && "-h" !in args && "--reset" !in args && "-r" !in args
    requires "--password" !in args && "-p" !in args
    ensures ChooseAction(args) == StartServer
  {
    assert FirstFlag(args, "--password", "-p").None?;
  }

  /** A flag given last has no value and does not count. */
  lemma TrailingFlagIgnored(args: seq<string>, flag: string)
    requires args != [] && args[|args| - 1] == flag
    requires forall j :: 0 <= j < |args| - 1 ==> args[j] != flag
    ensures FlagValue(args, flag, flag).None?
  {
    assert FirstFlag(args, flag, flag).value == |args| - 1;
  }

  // ---------------------------------------------------------------- web root

  /** Where `raw` sits inside its normalised form: after the added '/', if one was added. */
  function PadOffset(raw: string): nat { if StartsWith(raw, "/") then 0 else 1 }

  /** The web root as start-up stores it: one leading and one trailing '/' added where missing. */
  function NormalisedRoot(raw: string): (root: string)
    ensures StartsWith(root, "/") && EndsWith(root, "/")
    ensures OccursAt(root, raw, PadOffset(raw))
    ensures forall i :: 0 <= i < |root| && !(PadOffset(raw) <= i < PadOffset(raw) + |raw|) ==> root[i] == '/'
    ensures |root| <= |raw| + 2
    ensures StartsWith(raw, "/") && EndsWith(raw, "/") ==> root == raw
  {
    var lead := if StartsWith(raw, "/") then raw else "/" + raw;
    assert OccursAt(lead, raw, PadOffset(raw));
    var root := if EndsWith(lead, "/") then lead else lead + "/";
    assert lead == root[..|lead|];
    root
  }

  /** Start-up's rewriting of WEB_ROOT: defaulted, then fixed at the front, then at the back. */
  method NormaliseWebRoot(env: Option<string>) returns (webRoot: string)
    ensures webRoot == NormalisedRoot(env.GetOr("/"))
  {
    webRoot := env.GetOr("/");
    if !StartsWith(webRoot, "/") {
      webRoot := "/" + webRoot;
    }
    if !EndsWith(webRoot, "/") {
      webRoot := webRoot + "/";
    }
  }

  /** Normalising twice changes nothing: the router reads back the value start-up stored. */
  lemma NormaliseTwice(raw: string)
    ensures NormalisedRoot(NormalisedRoot(raw)) == NormalisedRoot(raw)
  {
  }

  /** Repeated slashes survive normalisation. */
  lemma SlashesNotCollapsed()
    ensures NormalisedRoot("//panel") == "//panel/"
  {
    assert StartsWith("//panel", "/");
    assert !EndsWith("//panel", "/");
  }

  /** Where the router is mounted. */
  datatype Mount = AtRoot | NestedUnder(path: string)

  /** `base_path`: the root without its trailing slashes. */
  function BasePath(root: string): (p: string)
    ensures |p| <= |root| && p == root[..|p|]
    ensures forall i :: |p| <= i < |root| ==> root[i] == '/'
    ensures p != [] ==> p[|p| - 1] != '/'
  {
    TrimEndMatches(root, '/')
  }

  function MountOf(webRoot: string): (m: Mount)
    ensures m.AtRoot? <==> BasePath(webRoot) == []
  {
    var base := BasePath(webRoot);
    if base == [] then AtRoot else NestedUnder(base)
  }

  /**
   * A web root made only of slashes serves the panel at the top; any other is
   * nested under a path that starts with '/', does not end with one, and
   * gives the stored root back when its trailing slashes are added.
   */
  lemma MountOfRoot(raw: string)
    ensures MountOf(NormalisedRoot(raw)).AtRoot? <==> forall i :: 0 <= i < |raw| ==> raw[i] == '/'
    ensures MountOf(NormalisedRoot(raw)).NestedUnder? ==>
      var p := MountOf(NormalisedRoot(raw)).path;
      p[0] == '/' && p[|p| - 1] != '/' && StartsWith(NormalisedRoot(raw), p)
  {
    BaseOfPadded(NormalisedRoot(raw), raw, PadOffset(raw));
  }

  /** The base path of a root that is `raw` framed by slashes. */
  lemma BaseOfPadded(root: string, raw: string, k: nat)
    requires OccursAt(root, raw, k) && root != [] && root[0] == '/'
    requires forall i :: 0 <= i < |root| && !(k <= i < k + |raw|) ==> root[i] == '/'
    ensures BasePath(root) == [] <==> forall i :: 0 <= i < |raw| ==> raw[i] == '/'
    ensures BasePath(root) != [] ==> BasePath(root)[0] == '/' && StartsWith(root, BasePath(root))
  {
    var base := BasePath(root);
    if base == [] {
      forall i | 0 <= i < |raw| ensures raw[i] == '/' {
        assert raw[i] == root[k..k + |raw|][i] == root[k + i];
      }
    } else {
      assert base[0] == root[0];
      var j := |base| - 1;
      assert base[j] == root[j] != '/';
      assert k <= j < k + |raw|;
      assert raw[j - k] == root[k..k + |raw|][j - k] == root[j];
    }
  }

  // ---------------------------------------------------------------- index page

  const Placeholder: string := "{{WEB_ROOT}}"

  /** index.html as served: every placeholder replaced by the web root. */
  function IndexPage(content: string, webRoot: string): (page: string)
    ensures !Contains(content, Placeholder) ==> page == content
  {
    ReplaceAll(content, Placeholder, webRoot)
  }

  /** A placeholder after text that holds none is the one replaced first. */
  lemma PlaceholderReplaced(before: string, after: string, webRoot: string)
    requires !Contains(before, Placeholder)
    ensures IndexPage(before + Placeholder + after, webRoot) == before + webRoot + IndexPage(after, webRoot)
  {
    var s := before + Placeholder + after;
    var n := |before|;
    assert s[n..n + |Placeholder|] == Placeholder;
    forall j | 0 <= j < n ensures !OccursAt(s, Placeholder, j) {
      if j + |Placeholder| <= n {
        assert s[j..j + |Placeholder|] == before[j..j + |Placeholder|];
        assert !OccursAt(before, Placeholder, j);
      } else {
        NoStraddlingPlaceholder(s, n, j);
      }
    }
    FindFirstAt(s, Placeholder, n);
    assert s[..n] == before;
    assert s[n + |Placeholder|..] == after;
  }

  /** No placeholder starts less than its own length before another one: it has no border. */
  lemma NoStraddlingPlaceholder(s: string, n: nat, j: nat)
    requires OccursAt(s, Placeholder, n)
    requires j < n < j + |Placeholder|
    ensures !OccursAt(s, Placeholder, j)
  {
    var d := n - j;
    assert s[n] == s[n..n + |Placeholder|][0] == '{';
    assert s[n + 1] == s[n..n + |Placeholder|][1] == '{';
    if j + |Placeholder| <= |s| {
      if d == 1 {
        assert s[j..j + |Placeholder|][2] == s[n + 1] != Placeholder[2];
      } else {
        assert s[j..j + |Placeholder|][d] == s[n] != Placeholder[d];
      }
    }
  }

  // ---------------------------------------------------------------- asset directory

  const FallbackDist: string := "./bin/dist"

  /** The directories tried in order: WEB_DIST_PATH (possibly empty) first. */
  function DistCandidates(envDist: string): seq<string> {
    [envDist, "./bin/dist", "./dist", "../web/dist", "dist"]
  }

  predicate Usable(path: string, exists_: string -> bool) { path != [] && exists_(path) }

  /** Index of the first usable candidate. */
  function FirstUsable(cands: seq<string>, exists_: string -> bool): (r: Option<nat>)
    ensures r.Some? ==> r.value < |cands| && Usable(cands[r.value], exists_)
    ensures r.Some? ==> forall j :: 0 <= j < r.value ==> !Usable(cands[j], exists_)
    ensures r.None? ==> forall j :: 0 <= j < |cands| ==> !Usable(cands[j], exists_)
    decreases |cands|
  {
    if cands == [] then None
    else if Usable(cands[0], exists_) then Some(0)
    else match FirstUsable(cands[1..], exists_)
      case None => None
      case Some(i) => Some(i + 1)
  }

  /** The directory the assets are served from: the first usable candidate, else the fallback. */
  function DistPath(envDist: string, exists_: string -> bool): (r: string)
    ensures r == FallbackDist || (r in DistCandidates(envDist) && Usable(r, exists_))
    ensures (exists i :: 0 <= i < |DistCandidates(envDist)| && Usable(DistCandidates(envDist)[i], exists_)) ==> Usable(r, exists_)
  {
    match FirstUsable(DistCandidates(envDist), exists_)
    case Some(i) => DistCandidates(envDist)[i]
    case None => FallbackDist
  }

  /** The search loop with its early exit. */
  method SelectDistPath(envDist: string, exists_: string -> bool) returns (dist: string)
    ensures dist == DistPath(envDist, exists_)
    ensures dist == FallbackDist || Usable(dist, exists_)
  {
    var candidates := DistCandidates(envDist);
    dist := FallbackDist;
    var i := 0;
    while i < |candidates|
      invariant 0 <= i <= |candidates|
      invariant FirstUsable(candidates[i..], exists_) == (match FirstUsable(candidates, exists_)
        case Some(k) => Some(k - i)
        case None => None)
      invariant forall j :: 0 <= j < i ==> !Usable(candidates[j], exists_)
    {
      var path := candidates[i];
      if path != [] && exists_(path) {
        dist := path;
        return;
      }
      assert candidates[i..][1..] == candidates[i + 1..];
      i := i + 1;
    }
  }

  /** A set WEB_DIST_PATH that exists always wins; an empty one is skipped. */
  lemma EnvDistWins(envDist: string, exists_: string -> bool)
    ensures Usable(envDist, exists_) ==> DistPath(envDist, exists_) == envDist
    ensures envDist == [] ==> DistPath(envDist, exists_) == DistPath(FallbackDist, exists_)
  {
    if envDist == [] {
      var c, d := DistCandidates(envDist), DistCandidates(FallbackDist);
      if Usable(FallbackDist, exists_) {
        assert FirstUsable(c, exists_) == Some(1) by {
          assert !Usable(c[0], exists_) && Usable(c[1], exists_);
        }
        assert FirstUsable(d, exists_) == Some(0);
      } else {
        FirstUsableAgrees(c, d, exists_);
      }
    }
  }

  /** Candidate lists with the same usable positions have the same first usable index. */
  lemma FirstUsableAgrees(c: seq<string>, d: seq<string>, exists_: string -> bool)
    requires |c| == |d|
    requires forall i :: 0 <= i < |c| ==> (Usable(c[i], exists_) <==> Usable(d[i], exists_))
    ensures FirstUsable(c, exists_) == FirstUsable(d, exists_)
  {
    var a, b := FirstUsable(c, exists_), FirstUsable(d, exists_);
    if a.Some? && b.Some? {
      assert !(a.value < b.value) && !(b.value < a.value);
    }
  }

}
