/**
 * The Express application server.js assembles: the stages it registers with
 * `app.use`, in registration order, and the registration functions that
 * walk the `folders` and `proxy` settings.
 */
module Pipeline {
  import opened Wrappers
  import opened Json
  import opened Platform
  import opened Mounts
  import opened Fallback
  import opened Startup

  /** The format handed to the request logger. */
  const LogFormat := "combined"

  /**
   * One registered middleware. `at` is the path given to `app.use`; `None`
   * is a registration without a path, which Express mounts at the root.
   */
  datatype Stage =
    | Logger(format: string)                                // morgan(format)
    | CustomHeaders(headers: seq<Header>)                   // the custom-headers middleware
    | ServeStatic(at: Option<string>, directory: string)    // express.static(directory)
    | RemoteProxy(at: Option<string>, target: Tree)          // proxy(target)
    | Responder(rules: seq<AcceptRule>)                     // the `unhandled` middleware

  /** The parsed configuration file, reduced to the settings server.js reads. */
  datatype Config = Config(
    port: Value,
    headers: Option<seq<Header>>,         // None when `config.headers` is falsy
    folders: Tree,
    proxy: Tree,
    unhandled: Option<seq<AcceptRule>>)   // None when `config.unhandled` is falsy

  /** The Express application: its middleware stack in registration order. */
  class App {
    var stages: seq<Stage>

    constructor ()
      ensures stages == []
    {
      stages := [];
    }

    /** `app.use(...)`: appends one stage. */
    method Use(s: Stage)
      modifies this
      ensures stages == old(stages) + [s]
    {
      stages := stages + [s];
    }
  }

  /** `if (urlPath) app.use(urlPath, m) else app.use(m)`. */
  function MountAt(urlPath: string): (at: Option<string>)
    ensures at.None? <==> urlPath == ""
    ensures at.Some? ==> at.value == urlPath
  {
    if urlPath != "" then Some(urlPath) else None
  }

  /** A relative folder is taken from the working directory. */
  function FolderPath(host: Host, folder: string): string {
    if host.isAbsolute(folder) then folder else host.join(host.cwd, folder)
  }

  function StaticStage(host: Host, m: FolderMount): Stage {
    ServeStatic(MountAt(m.urlPath), FolderPath(host, m.folder))
  }

  /** The stages registered for a list of static mounts, one each, in order. */
  function StaticStages(host: Host, ms: seq<FolderMount>): (r: seq<Stage>)
    ensures |r| == |ms|
    ensures forall i :: 0 <= i < |ms| ==> r[i] == StaticStage(host, ms[i])
  {
    seq(|ms|, i requires 0 <= i < |ms| => StaticStage(host, ms[i]))
  }

  function ProxyStage(m: ProxyMount): Stage {
    RemoteProxy(MountAt(m.urlPath), m.target)
  }

  /** The stages registered for a list of proxy mounts, one each, in order. */
  function ProxyStages(ms: seq<ProxyMount>): (r: seq<Stage>)
    ensures |r| == |ms|
    ensures forall i :: 0 <= i < |ms| ==> r[i] == ProxyStage(ms[i])
  {
    seq(|ms|, i requires 0 <= i < |ms| => ProxyStage(ms[i]))
  }

  lemma StagesAppendAssoc(a: seq<Stage>, b: seq<Stage>, c: seq<Stage>)
    ensures a + b + c == a + (b + c)
  {
  }

  lemma StaticStagesAppend(host: Host, x: seq<FolderMount>, y: seq<FolderMount>)
    ensures StaticStages(host, x + y) == StaticStages(host, x) + StaticStages(host, y)
  {
  }

  /** `addStaticFolderByName(urlPath, folder)`. */
  method AddStaticFolderByName(app: App, host: Host, urlPath: string, folder: string)
    modifies app
    ensures app.stages == old(app.stages) + [StaticStage(host, FolderMount(urlPath, folder))]
  {
    var folderPath := folder;
    if !host.isAbsolute(folder) {
      folderPath := host.join(host.cwd, folder);
    }
    if urlPath != "" {
      app.Use(ServeStatic(Some(urlPath), folderPath));
    } else {
      app.Use(ServeStatic(None, folderPath));
    }
  }

  /** `addStaticFolder(rootPath, folder)`: registers the static mounts of the tree, in order. */
  method AddStaticFolder(app: App, host: Host, root: string, t: Tree)
    modifies app
    ensures app.stages == old(app.stages) + StaticStages(host, StaticFolders(root, t))
    decreases t, 0
  {
    match t
    case Leaf(folder) =>
      AddStaticFolderByName(app, host, root, folder);
    case List(items) =>
      AddStaticFolders(app, host, root, items);
    case Named(entries) =>
      AddMappedStaticFolders(app, host, root, entries);
    case Other =>
  }

  /** `addStaticFolders(rootPath, folders)`: every element at `root`. */
  method AddStaticFolders(app: App, host: Host, root: string, items: seq<Tree>)
    modifies app
    ensures app.stages == old(app.stages) + StaticStages(host, StaticFolderList(root, items, |items|))
    decreases items, 0
  {
    var i := 0;
    while i < |items|
      invariant 0 <= i <= |items|
      invariant app.stages == old(app.stages) + StaticStages(host, StaticFolderList(root, items, i))
    {
      ghost var before := StaticFolderList(root, items, i);
      AddStaticFolder(app, host, root, items[i]);
      StaticStagesAppend(host, before, StaticFolders(root, items[i]));
      StagesAppendAssoc(old(app.stages), StaticStages(host, before), StaticStages(host, StaticFolders(root, items[i])));
      i := i + 1;
    }
  }

  /** `addMappedStaticFolders(rootPath, folders)`: every property value at `root + key`. */
  method AddMappedStaticFolders(app: App, host: Host, root: string, entries: seq<Entry>)
    modifies app
    ensures app.stages == old(app.stages) + StaticStages(host, MappedStaticFolders(root, entries, |entries|))
    decreases entries, 0
  {
    var i := 0;
    while i < |entries|
      invariant 0 <= i <= |entries|
      invariant app.stages == old(app.stages) + StaticStages(host, MappedStaticFolders(root, entries, i))
    {
      ghost var before := MappedStaticFolders(root, entries, i);
      var folderPath := root + entries[i].key;
      AddStaticFolder(app, host, folderPath, entries[i].value);
      StaticStagesAppend(host, before, StaticFolders(folderPath, entries[i].value));
      StagesAppendAssoc(old(app.stages), StaticStages(host, before), StaticStages(host, StaticFolders(folderPath, entries[i].value)));
      i := i + 1;
    }
  }

  /** `addRemoteProxy(urlPath, proxyServer)`. */
  method AddRemoteProxy(app: App, urlPath: string, target: Tree)
    modifies app
    ensures app.stages == old(app.stages) + [ProxyStage(ProxyMount(urlPath, target))]
  {
    if urlPath != "" {
      app.Use(RemoteProxy(Some(urlPath), target));
    } else {
      app.Use(RemoteProxy(None, target));
    }
  }

  /** `addMappedProxy(localRootPath, pathPairs)`: every property value at `root + key`. */
  method AddMappedProxy(app: App, root: string, entries: seq<Entry>)
    modifies app
    ensures app.stages == old(app.stages) + ProxyStages(MappedProxies(root, entries, |entries|))
  {
    var i := 0;
    while i < |entries|
      invariant 0 <= i <= |entries|
      invariant app.stages == old(app.stages) + ProxyStages(MappedProxies(root, entries, i))
    {
      AddRemoteProxy(app, root + entries[i].key, entries[i].value);
      assert ProxyStages(MappedProxies(root, entries, i + 1))
        == ProxyStages(MappedProxies(root, entries, i)) + [ProxyStage(ProxyMount(root + entries[i].key, entries[i].value))];
      i := i + 1;
    }
  }

  /** `addProxies(localRootPath, proxies)`: every element, as it is, at `root`. */
  method AddProxies(app: App, root: string, items: seq<Tree>)
    modifies app
    ensures app.stages == old(app.stages) + ProxyStages(ProxyList(root, items, |items|))
  {
    var i := 0;
    while i < |items|
      invariant 0 <= i <= |items|
      invariant app.stages == old(app.stages) + ProxyStages(ProxyList(root, items, i))
    {
      AddRemoteProxy(app, root, items[i]);
      assert ProxyStages(ProxyList(root, items, i + 1))
        == ProxyStages(ProxyList(root, items, i)) + [ProxyStage(ProxyMount(root, items[i]))];
      i := i + 1;
    }
  }

  /** `addProxy(localRootPath, remoteProxy)`. */
  method AddProxy(app: App, root: string, t: Tree)
    modifies app
    ensures app.stages == old(app.stages) + ProxyStages(ProxyTargets(root, t))
  {
    match t
    case Leaf(_) =>
      AddRemoteProxy(app, root, t);
    case List(items) =>
      AddProxies(app, root, items);
    case Named(entries) =>
      AddMappedProxy(app, root, entries);
    case Other =>
  }

  /** The middleware stack server.js builds from a configuration. */
  function Stack(config: Config, host: Host): seq<Stage> {
    [Logger(LogFormat)]
    + (if config.headers.Some? then [CustomHeaders(config.headers.value)] else [])
    + (if IsSet(config.folders) then StaticStages(host, StaticFolders("", config.folders)) else [])
    + (if IsSet(config.proxy) then ProxyStages(ProxyTargets("", config.proxy)) else [])
    + (if config.unhandled.Some? then [Responder(config.unhandled.value)] else [])
  }

  /**
   * The start-up script after the configuration is read: picks the port and
   * registers the logger, the custom headers, the static folders, the
   * proxies and the fallback responder, in that order.
   */
  method BuildApp(config: Config, host: Host, envPort: Option<string>) returns (app: App, port: Value)
    ensures fresh(app)
    ensures app.stages == Stack(config, host)
    ensures port == SelectPort(config.port, envPort)
  {
    app := new App();
    port := SelectPort(config.port, envPort);
    app.Use(Logger(LogFormat));
    ghost var built := [Logger(LogFormat)];
    assert app.stages == built;
    if config.headers.Some? {
      app.Use(CustomHeaders(config.headers.value));
    }
    built := built + (if config.headers.Some? then [CustomHeaders(config.headers.value)] else []);
    assert app.stages == built;
    if IsSet(config.folders) {
      AddStaticFolder(app, host, "", config.folders);
    }
    built := built + (if IsSet(config.folders) then StaticStages(host, StaticFolders("", config.folders)) else []);
    assert app.stages == built;
    if IsSet(config.proxy) {
      AddProxy(app, "", config.proxy);
    }
    built := built + (if IsSet(config.proxy) then ProxyStages(ProxyTargets("", config.proxy)) else []);
    assert app.stages == built;
    if config.unhandled.Some? {
      app.Use(Responder(config.unhandled.value));
    }
    built := built + (if config.unhandled.Some? then [Responder(config.unhandled.value)] else []);
    assert app.stages == built;
  }

  /** The position of each kind of stage in the stack. */
  function Rank(s: Stage): nat {
    match s
    case Logger(_) => 0
    case CustomHeaders(_) => 1
    case ServeStatic(_, _) => 2
    case RemoteProxy(_, _) => 3
    case Responder(_) => 4
  }

  predicate RankOrdered(stages: seq<Stage>) {
    forall i, j :: 0 <= i < j < |stages| ==> Rank(stages[i]) <= Rank(stages[j])
  }

  predicate AllRank(stages: seq<Stage>, k: nat) {
    forall i :: 0 <= i < |stages| ==> Rank(stages[i]) == k
  }

  lemma OrderedAppend(a: seq<Stage>, k: nat, b: seq<Stage>)
    requires RankOrdered(a) && (forall i :: 0 <= i < |a| ==> Rank(a[i]) <= k)
    requires AllRank(b, k)
    ensures RankOrdered(a + b)
    ensures forall i :: 0 <= i < |a + b| ==> Rank((a + b)[i]) <= k
  {
  }

  lemma StaticStagesRank(host: Host, ms: seq<FolderMount>)
    ensures AllRank(StaticStages(host, ms), 2)
  {
  }

  lemma ProxyStagesRank(ms: seq<ProxyMount>)
    ensures AllRank(ProxyStages(ms), 3)
  {
  }

  /** Blocks of logger, headers, static, proxy and responder stages, in that order, are rank-ordered. */
  lemma RankedBlocks(l: seq<Stage>, h: seq<Stage>, s: seq<Stage>, p: seq<Stage>, f: seq<Stage>)
    requires AllRank(l, 0) && AllRank(h, 1) && AllRank(s, 2) && AllRank(p, 3) && AllRank(f, 4)
    ensures RankOrdered(l + h + s + p + f)
  {
    OrderedAppend([], 0, l);
    assert [] + l == l;
    OrderedAppend(l, 1, h);
    OrderedAppend(l + h, 2, s);
    OrderedAppend(l + h + s, 3, p);
    OrderedAppend(l + h + s + p, 4, f);
  }

  /** The kinds of stage come in a fixed order: logger, headers, static, proxies, fallback. */
  lemma StackRanked(config: Config, host: Host)
    ensures RankOrdered(Stack(config, host))
  {
    var h := if config.headers.Some? then [CustomHeaders(config.headers.value)] else [];
    var s := if IsSet(config.folders) then StaticStages(host, StaticFolders("", config.folders)) else [];
    var p := if IsSet(config.proxy) then ProxyStages(ProxyTargets("", config.proxy)) else [];
    var f := if config.unhandled.Some? then [Responder(config.unhandled.value)] else [];
    ghost var stack := Stack(config, host);
    assert stack == [Logger(LogFormat)] + h + s + p + f;
    if IsSet(config.folders) {
      StaticStagesRank(host, StaticFolders("", config.folders));
    }
    if IsSet(config.proxy) {
      ProxyStagesRank(ProxyTargets("", config.proxy));
    }
    assert AllRank(h, 1) && AllRank(f, 4);
    RankedBlocks([Logger(LogFormat)], h, s, p, f);
  }

  /**
   * The stack holds the logger first, then the custom-headers stage exactly
   * when `headers` is set, and ends with the fallback responder exactly when
   * `unhandled` is set; no responder stands anywhere else.
   */
  lemma StackOrder(config: Config, host: Host)
    ensures var stages := Stack(config, host);
      && stages[0] == Logger(LogFormat)
      && (config.headers.Some? <==> |stages| > 1 && stages[1].CustomHeaders?)
      && (config.headers.Some? ==> stages[1] == CustomHeaders(config.headers.value))
      && (config.unhandled.Some? <==> stages[|stages| - 1].Responder?)
      && (config.unhandled.Some? ==> stages[|stages| - 1] == Responder(config.unhandled.value))
      && (forall i :: 0 <= i < |stages| - 1 ==> !stages[i].Responder?)
  {
    StackRanked(config, host);
    var stages := Stack(config, host);
    if config.headers.Some? {
      assert stages[1] == CustomHeaders(config.headers.value);
    } else if |stages| > 1 {
      assert Rank(stages[1]) >= Rank(stages[0]) && !stages[1].CustomHeaders?;
    }
    if config.unhandled.Some? {
      assert stages[|stages| - 1] == Responder(config.unhandled.value);
    }
  }

  /**
   * The static stages follow the logger and the custom-headers stage: they
   * are the stages of the root mounts of `folders`, and nothing else comes
   * between.
   */
  lemma StaticStagesFollowFolders(config: Config, host: Host)
    requires IsSet(config.folders)
    ensures var stages := Stack(config, host);
      var first := if config.headers.Some? then 2 else 1;
      var s := StaticStages(host, StaticFolders("", config.folders));
      && first + |s| <= |stages|
      && stages[first..first + |s|] == s
  {
    var pre := [Logger(LogFormat)] + if config.headers.Some? then [CustomHeaders(config.headers.value)] else [];
    var s := StaticStages(host, StaticFolders("", config.folders));
    var p := if IsSet(config.proxy) then ProxyStages(ProxyTargets("", config.proxy)) else [];
    var f := if config.unhandled.Some? then [Responder(config.unhandled.value)] else [];
    assert Stack(config, host) == pre + s + p + f;
    assert |pre| == if config.headers.Some? then 2 else 1;
    BlockAt(pre, s, p, f);
  }

  /** The stages for a tree mounted at the root: one per string, at the keys on the way to it. */
  lemma StaticStagesOfTree(host: Host, t: Tree)
    ensures var s := StaticStages(host, StaticFolders("", t));
      && |s| == |Leaves(t)|
      && forall i :: 0 <= i < |s| ==> s[i] == ServeStatic(MountAt(KeyPaths(t)[i]), FolderPath(host, Leaves(t)[i]))
  {
    var mounts := StaticFolders("", t);
    forall i | 0 <= i < |mounts| ensures mounts[i].urlPath == KeyPaths(t)[i] {
      assert "" + KeyPaths(t)[i] == KeyPaths(t)[i];
    }
  }

  lemma BlockAt(pre: seq<Stage>, s: seq<Stage>, p: seq<Stage>, f: seq<Stage>)
    ensures |pre| + |s| <= |pre + s + p + f|
    ensures (pre + s + p + f)[|pre|..|pre| + |s|] == s
  {
    assert (pre + s + p + f)[|pre|..|pre| + |s|] == (pre + s)[|pre|..];
  }
}
