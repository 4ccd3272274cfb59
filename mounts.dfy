/**
 * The `folders` and `proxy` settings of the configuration: a string, an
 * array or a path-keyed object, nested to any depth. server.js flattens them
 * into ordered mounts (url path, target); this module gives the order and
 * the url paths those flatteners produce. A url path of "" is the root
 * (the source passes `null` there, and treats `null` and "" alike).
 */
module Mounts {

  /** A `folders`/`proxy` value: a string, an array, an object (keys in declaration order), or anything else. */
  datatype Tree = Leaf(text: string) | List(items: seq<Tree>) | Named(entries: seq<Entry>) | Other

  /** One property of an object value. */
  datatype Entry = Entry(key: string, value: Tree)

  /** One static mount: a url path and the configured folder text. */
  datatype FolderMount = FolderMount(urlPath: string, folder: string)

  /** One proxy mount: a url path and the configured value handed to the proxy as its target. */
  datatype ProxyMount = ProxyMount(urlPath: string, target: Tree)

  /** `if (config.folders)` / `if (config.proxy)`: the empty string and non-object scalars are skipped. */
  predicate IsSet(t: Tree) {
    match t
    case Leaf(s) => s != ""
    case Other => false
    case _ => true
  }

  /** The strings of a tree in depth-first order, ignoring keys: the reference for what gets mounted. */
  function Leaves(t: Tree): seq<string>
    decreases t, 0
  {
    match t
    case Leaf(s) => [s]
    case List(items) => ListLeaves(items, |items|)
    case Named(entries) => NamedLeaves(entries, |entries|)
    case Other => []
  }

  function ListLeaves(items: seq<Tree>, n: nat): seq<string>
    requires n <= |items|
    decreases items, n
  {
    if n == 0 then [] else ListLeaves(items, n - 1) + Leaves(items[n - 1])
  }

  function NamedLeaves(entries: seq<Entry>, n: nat): seq<string>
    requires n <= |entries|
    decreases entries, n
  {
    if n == 0 then [] else NamedLeaves(entries, n - 1) + Leaves(entries[n - 1].value)
  }

  /**
   * The object keys on the way to each string of a tree, concatenated, in
   * the order of `Leaves`: an array adds no key, an object puts its key in
   * front of every path below it. The reference for the url paths mounted.
   */
  function KeyPaths(t: Tree): (r: seq<string>)
    ensures |r| == |Leaves(t)|
    decreases t, 0
  {
    match t
    case Leaf(_) => [""]
    case List(items) => ListKeyPaths(items, |items|)
    case Named(entries) => NamedKeyPaths(entries, |entries|)
    case Other => []
  }

  function ListKeyPaths(items: seq<Tree>, n: nat): (r: seq<string>)
    requires n <= |items|
    ensures |r| == |ListLeaves(items, n)|
    decreases items, n
  {
    if n == 0 then [] else ListKeyPaths(items, n - 1) + KeyPaths(items[n - 1])
  }

  function NamedKeyPaths(entries: seq<Entry>, n: nat): (r: seq<string>)
    requires n <= |entries|
    ensures |r| == |NamedLeaves(entries, n)|
    decreases entries, n
  {
    if n == 0 then [] else NamedKeyPaths(entries, n - 1) + Prefixed(entries[n - 1].key, KeyPaths(entries[n - 1].value))
  }

  /** Every path of `paths`, with `key` in front. */
  function Prefixed(key: string, paths: seq<string>): seq<string> {
    seq(|paths|, i requires 0 <= i < |paths| => key + paths[i])
  }

  /**
   * `addStaticFolder(root, t)`: a string is one mount at `root`; an array
   * mounts every element at `root`; an object mounts every value at
   * `root + key`; anything else mounts nothing. The folders mounted are the
   * tree's strings in depth-first order, each at `root` followed by the keys
   * on the way to it, with no separator added.
   */
  function StaticFolders(root: string, t: Tree): (r: seq<FolderMount>)
    ensures |r| == |Leaves(t)|
    ensures forall i :: 0 <= i < |r| ==> r[i] == FolderMount(root + KeyPaths(t)[i], Leaves(t)[i])
    decreases t, 0
  {
    match t
    case Leaf(folder) => [FolderMount(root, folder)]
    case List(items) => StaticFolderList(root, items, |items|)
    case Named(entries) => MappedStaticFolders(root, entries, |entries|)
    case Other => []
  }

  /** `addStaticFolders`: the first `n` elements of an array, each at `root`. */
  function StaticFolderList(root: string, items: seq<Tree>, n: nat): (r: seq<FolderMount>)
    requires n <= |items|
    ensures |r| == |ListLeaves(items, n)|
    ensures forall i :: 0 <= i < |r| ==> r[i] == FolderMount(root + ListKeyPaths(items, n)[i], ListLeaves(items, n)[i])
    decreases items, n
  {
    if n == 0 then [] else StaticFolderList(root, items, n - 1) + StaticFolders(root, items[n - 1])
  }

  /** `addMappedStaticFolders`: the first `n` properties of an object, each at `root + key`. */
  function MappedStaticFolders(root: string, entries: seq<Entry>, n: nat): (r: seq<FolderMount>)
    requires n <= |entries|
    ensures |r| == |NamedLeaves(entries, n)|
    ensures forall i :: 0 <= i < |r| ==> r[i] == FolderMount(root + NamedKeyPaths(entries, n)[i], NamedLeaves(entries, n)[i])
    decreases entries, n
  {
    if n == 0 then []
    else
      var e := entries[n - 1];
      var here := StaticFolders(root + e.key, e.value);
      assert forall i :: 0 <= i < |here| ==> here[i].urlPath == root + Prefixed(e.key, KeyPaths(e.value))[i] by {
        forall i | 0 <= i < |here| ensures here[i].urlPath == root + Prefixed(e.key, KeyPaths(e.value))[i] {
          assert root + e.key + KeyPaths(e.value)[i] == root + (e.key + KeyPaths(e.value)[i]);
        }
      }
      MappedStaticFolders(root, entries, n - 1) + here
  }

  /** Every url path of `ms`, prefixed with `a`. */
  function Rebase(a: string, ms: seq<FolderMount>): seq<FolderMount> {
    seq(|ms|, i requires 0 <= i < |ms| => FolderMount(a + ms[i].urlPath, ms[i].folder))
  }

  /**
   * Url paths are plain concatenations: flattening under `a + b` is
   * flattening under `b` with `a` put in front of every url path, with no
   * separator added.
   */
  lemma StaticFoldersRebase(a: string, b: string, t: Tree)
    ensures StaticFolders(a + b, t) == Rebase(a, StaticFolders(b, t))
  {
    var paths := KeyPaths(t);
    forall i | 0 <= i < |paths| ensures a + b + paths[i] == a + (b + paths[i]) {
      assert a + b + paths[i] == a + (b + paths[i]);
    }
  }

  /**
   * `addProxy(root, t)`: a string is one mount at `root`; every element of an
   * array is handed to the proxy as it is, at `root`; every value of an
   * object is handed to the proxy as it is, at `root + key`. Unlike the
   * static flattener nothing nested is flattened further.
   */
  function ProxyTargets(root: string, t: Tree): (r: seq<ProxyMount>)
    ensures t.Leaf? ==> r == [ProxyMount(root, t)]
    ensures t.List? ==> |r| == |t.items| && forall i :: 0 <= i < |r| ==> r[i] == ProxyMount(root, t.items[i])
    ensures t.Named? ==>
      && |r| == |t.entries|
      && forall i :: 0 <= i < |r| ==> r[i] == ProxyMount(root + t.entries[i].key, t.entries[i].value)
    ensures t.Other? ==> r == []
  {
    match t
    case Leaf(_) => [ProxyMount(root, t)]
    case List(items) => ProxyList(root, items, |items|)
    case Named(entries) => MappedProxies(root, entries, |entries|)
    case Other => []
  }

  /** `addProxies`: the first `n` array elements, each at `root`. */
  function ProxyList(root: string, items: seq<Tree>, n: nat): (r: seq<ProxyMount>)
    requires n <= |items|
    ensures |r| == n && forall i :: 0 <= i < n ==> r[i] == ProxyMount(root, items[i])
  {
    if n == 0 then [] else ProxyList(root, items, n - 1) + [ProxyMount(root, items[n - 1])]
  }

  /** `addMappedProxy`: the first `n` object properties, each at `root + key`. */
  function MappedProxies(root: string, entries: seq<Entry>, n: nat): (r: seq<ProxyMount>)
    requires n <= |entries|
    ensures |r| == n && forall i :: 0 <= i < n ==> r[i] == ProxyMount(root + entries[i].key, entries[i].value)
  {
    if n == 0 then [] else MappedProxies(root, entries, n - 1) + [ProxyMount(root + entries[n - 1].key, entries[n - 1].value)]
  }

  /** A string, or an array or object whose members are all strings: no nesting. */
  predicate Flat(t: Tree) {
    match t
    case Leaf(_) => true
    case List(items) => forall i :: 0 <= i < |items| ==> items[i].Leaf?
    case Named(entries) => forall i :: 0 <= i < |entries| ==> entries[i].value.Leaf?
    case Other => true
  }

  /** On a tree without nesting the proxy flattener mounts what the static flattener mounts, at the same url paths. */
  lemma ProxyAgreesOnFlatTrees(root: string, t: Tree)
    requires Flat(t)
    ensures |ProxyTargets(root, t)| == |StaticFolders(root, t)|
    ensures forall i :: 0 <= i < |ProxyTargets(root, t)| ==>
      ProxyTargets(root, t)[i] == ProxyMount(StaticFolders(root, t)[i].urlPath, Leaf(StaticFolders(root, t)[i].folder))
  {
    match t
    case Leaf(_) =>
    case List(items) => FlatListAgrees(root, items, |items|);
    case Named(entries) => FlatNamedAgrees(root, entries, |entries|);
    case Other =>
  }

  lemma {:induction false} FlatListAgrees(root: string, items: seq<Tree>, n: nat)
    requires n <= |items|
    requires forall i :: 0 <= i < |items| ==> items[i].Leaf?
    ensures StaticFolderList(root, items, n) == seq(n, i requires 0 <= i < n => FolderMount(root, items[i].text))
  {
    if n > 0 {
      FlatListAgrees(root, items, n - 1);
    }
  }

  lemma {:induction false} FlatNamedAgrees(root: string, entries: seq<Entry>, n: nat)
    requires n <= |entries|
    requires forall i :: 0 <= i < |entries| ==> entries[i].value.Leaf?
    ensures MappedStaticFolders(root, entries, n) ==
      seq(n, i requires 0 <= i < n => FolderMount(root + entries[i].key, entries[i].value.text))
  {
    if n > 0 {
      FlatNamedAgrees(root, entries, n - 1);
    }
  }

  /** With nesting they differ: a nested object under `/api` is one proxy mount at `/api`, but a static mount at `/api/v1`. */
  lemma NestedObjectNotFlattenedForProxy()
    ensures var t := Named([Entry("/api", Named([Entry("/v1", Leaf("http://localhost:4001"))]))]);
      && StaticFolders("", t) == [FolderMount("/api/v1", "http://localhost:4001")]
      && ProxyTargets("", t) == [ProxyMount("/api", Named([Entry("/v1", Leaf("http://localhost:4001"))]))]
  {
    var inner := Named([Entry("/v1", Leaf("http://localhost:4001"))]);
    var t := Named([Entry("/api", inner)]);
    assert "" + "/api" == "/api" && "/api" + "/v1" == "/api/v1";
    assert StaticFolders("/api", inner) == [FolderMount("/api/v1", "http://localhost:4001")];
    assert StaticFolders("", t) == MappedStaticFolders("", t.entries, 0) + StaticFolders("/api", inner);
  }
}
