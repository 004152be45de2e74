/** The controller's file system: where a proxy's repository is cloned to, and what is synthesized there. */
module Workdir {
  import opened Wrappers
  import opened Text
  import opened Api
  import opened Access
  import opened Resourcer
  import opened Synthesizer

  /** The directory of a proxy and a branch: the parts are joined by dashes, which they may contain. */
  function Directory(k: Key, branch: string): string {
    "/tmp/cdk8s-" + k.namespace + "-" + k.name + "-" + branch
  }

  lemma DirectoryInFull()
    ensures Directory(Key("default", "app"), "main") == "/tmp/cdk8s-default-app-main"
  {
  }

  /** Two proxies that share a directory. */
  lemma DirectoriesClash()
    ensures Directory(Key("a", "b-c"), "main") == Directory(Key("a-b", "c"), "main")
  {
  }

  /** Without dashes in namespaces and names a directory belongs to one proxy and one branch. */
  lemma DirectoryWithoutDashes(j: Key, a: string, k: Key, b: string)
    requires '-' !in j.namespace && '-' !in j.name && '-' !in k.namespace && '-' !in k.name
    requires Directory(j, a) == Directory(k, b)
    ensures j == k && a == b
  {
    DirectorySplits(j, a);
    DirectorySplits(k, b);
    assert |Directory(j, a)| - |a| == |Directory(k, b)| - |b|;
    assert a == Directory(j, a)[|Directory(j, a)| - |a|..] == Directory(k, b)[|Directory(k, b)| - |b|..] == b;
  }

  lemma FourParts(root: string, namespace: string, name: string, branch: string)
    requires '-' !in root && '-' !in namespace && '-' !in name
    ensures Split(root + "-" + namespace + "-" + name + "-" + branch, '-') ==
              [root, namespace, name] + Split(branch, '-')
  {
    SplitConcat(root + "-" + namespace + "-" + name, branch, '-');
    SplitConcat(root + "-" + namespace, name, '-');
    SplitConcat(root, namespace, '-');
    SplitWhole(root, '-');
    SplitWhole(namespace, '-');
    SplitWhole(name, '-');
  }

  lemma DirectorySplits(k: Key, branch: string)
    requires '-' !in k.namespace && '-' !in k.name
    ensures var parts := Split(Directory(k, branch), '-'); |parts| >= 3 && parts[1] == k.namespace && parts[2] == k.name
  {
    var root := "/tmp/cdk8s";
    assert root + "-" == "/tmp/cdk8s-";
    FourParts(root, k.namespace, k.name, branch);
  }

  // ------------------------------------------------------------------ places

  /** A place in the file system: the parts of a clean rooted path. A place that is a prefix of another encloses it. */
  type Place = seq<string>

  function Parts(path: string): Place {
    Normalised(Split(path, '/'), [])
  }

  /** What a reconciliation works on: a proxy, and the branch and path it names. */
  datatype Job = Job(key: Key, branch: string, path: string)

  /** Where a job's repository is cloned to. */
  function PlaceOf(j: Job): Place {
    Parts(Directory(j.key, j.branch))
  }

  /** Where it is synthesized; a path may lead anywhere. */
  function SpotOf(j: Job): Place {
    Normalised(Split(j.path, '/'), PlaceOf(j))
  }

  /** That is where filepath.Join leads. */
  lemma SpotIsJoined(j: Job)
    ensures Rooted(SpotOf(j)) == JoinPath(Directory(j.key, j.branch), j.path)
  {
    SplitConcat(Directory(j.key, j.branch), j.path, '/');
    NormalisedInTurn(Split(Directory(j.key, j.branch), '/'), Split(j.path, '/'), []);
  }

  predicate Inside(j: Job) {
    PlaceOf(j) <= SpotOf(j)
  }

  /** A job's path from the root of its clone. */
  function Relative(j: Job): Place
    requires Inside(j)
  {
    SpotOf(j)[|PlaceOf(j)|..]
  }

  predicate Related(p: Place, q: Place) {
    p <= q || q <= p
  }

  /** A branch may contain slashes, so that one directory can lie in another. */
  lemma DirectoriesNest()
    ensures PlaceOf(Job(Key("a-b", "c"), "main/x", "")) == PlaceOf(Job(Key("a", "b-c"), "main", "")) + ["x"]
  {
    var outer := Directory(Key("a", "b-c"), "main");
    assert Directory(Key("a-b", "c"), "main/x") == outer + ['/'] + "x";
    SplitConcat(outer, "x", '/');
    SplitWhole("x", '/');
    NormalisedInTurn(Split(outer, '/'), ["x"], []);
    assert Normalised(["x"], Parts(outer)) == Normalised([], Parts(outer) + ["x"]);
  }

  // -------------------------------------------------------------- file system

  /** What a branch of a repository holds: for every path from its root, what `cdk8s synth` ends in there. */
  type Tree = Place -> Workspace

  datatype Checkout = Checkout(url: string, branch: string, tree: Tree)

  /** The clones on the file system, by where they were made. */
  type Disk = map<Place, Checkout>

  /** How many parts of a place lead to the innermost clone that encloses it. */
  function Nearest(disk: Disk, spot: Place, n: nat): (r: Option<nat>)
    requires n <= |spot|
    ensures r.Some? ==> r.value <= n && spot[..r.value] in disk
    ensures forall m | (if r.Some? then r.value else -1) < m <= n :: spot[..m] !in disk
  {
    if spot[..n] in disk then Some(n) else if n == 0 then None else Nearest(disk, spot, n - 1)
  }

  /** The innermost clone around a place; the place itself if there is none. */
  function RootAt(disk: Disk, spot: Place): Place {
    match Nearest(disk, spot, |spot|) case Some(n) => spot[..n] case None => spot
  }

  /** Other clones lie in that one, so that what is found there is no repository's content any more. */
  predicate Disturbed(disk: Disk, spot: Place) {
    exists q | q in disk :: RootAt(disk, spot) < q
  }

  /** What a synthesis finds in an undisturbed place. */
  function Plainly(disk: Disk, spot: Place): Option<Workspace> {
    match Nearest(disk, spot, |spot|) case Some(n) => Some(disk[spot[..n]].tree(spot[n..])) case None => None
  }

  /** What a synthesis may find: in a disturbed place, anything. */
  ghost predicate Sees(disk: Disk, spot: Place, content: Option<Workspace>) {
    Disturbed(disk, spot) || content == Plainly(disk, spot)
  }

  function View(disk: Disk, spot: Place, mixed: Option<Workspace>): (content: Option<Workspace>)
    ensures Sees(disk, spot, content)
  {
    if Disturbed(disk, spot) then mixed else Plainly(disk, spot)
  }

  /** A clone with nothing else in it is what a synthesis anywhere in it finds. */
  lemma OwnPlace(disk: Disk, place: Place, spot: Place)
    requires place in disk && place <= spot && forall q | q in disk :: !(place < q)
    ensures !Disturbed(disk, spot)
    ensures Plainly(disk, spot) == Some(disk[place].tree(spot[|place|..]))
  {
    var n := |place|;
    assert spot[..n] == place;
    forall m | n < m <= |spot|
      ensures spot[..m] !in disk
    {
      assert place < spot[..m];
    }
  }

  /** Away from all clones there is nothing. */
  lemma NoPlace(disk: Disk, spot: Place)
    requires forall q | q in disk :: !Related(q, spot)
    ensures !Disturbed(disk, spot) && Plainly(disk, spot) == None
  {
    forall m | 0 <= m <= |spot|
      ensures spot[..m] !in disk
    {
      assert spot[..m] <= spot;
    }
  }

  /** A clone at a place, over whatever was there. */
  function WithClone(disk: Disk, place: Place, checkout: Checkout): Disk {
    disk[place := checkout]
  }

  /** Everything at or beneath a place is gone. */
  function Without(disk: Disk, place: Place): (d: Disk)
    ensures forall q :: q in d <==> q in disk && !(place <= q)
    ensures forall q | q in d :: d[q] == disk[q]
  {
    map q | q in disk && !(place <= q) :: disk[q]
  }

  function SynthesisIn(content: Option<Workspace>): Outcome<seq<Manifest>> {
    match content case None => Failed case Some(ws) => SynthesisOf(ws)
  }

  /** What a reconciliation has done. */
  datatype Act =
    | Cloned(directory: string, url: string, branch: string)
    | SynthesizedAt(directory: string, path: string)
    | AppliedTo(selector: Selector, resources: seq<Manifest>)
    | CheckedOn(selector: Selector, resources: seq<Manifest>)

  /** The file system of the controller, and a record of what succeeded on it. */
  class Container {
    var disk: Disk
    var acts: seq<Act>

    constructor ()
      ensures disk == map[] && acts == []
    {
      disk, acts := map[], [];
    }

    /** The foreign clone: on success the directory holds what the named branch of the named repository holds. */
    method PlainClone(directory: string, url: string, branch: string, clones: bool, holds: (string, string) -> Tree)
      returns (err: bool)
      modifies this
      ensures err == !clones
      ensures disk == if err then old(disk) else WithClone(old(disk), Parts(directory), Checkout(url, branch, holds(url,
                branch)))
      ensures acts == old(acts) + if err then [] else [Cloned(directory, url, branch)]
    {
      if clones {
        disk := WithClone(disk, Parts(directory), Checkout(url, branch, holds(url, branch)));
        acts := acts + [Cloned(directory, url, branch)];
      }
      err := !clones;
    }

    /** Cloning presents a credential exactly when it is given one, and then one that fits the URL. */
    method Clone(url: string, secret: Option<string>, branch: string, directory: string, remote: Remote,
                 holds: (string, string) -> Tree)
      returns (err: bool, calls: seq<Call>)
      modifies this
      ensures !err <==> remote.directory && remote.clones && (secret.Some? ==> AuthFor(url, secret.value, remote).Some?)
      ensures calls <= [Call.Clone(url, if secret.Some? then AuthFor(url, secret.value, remote) else None, branch)]
      ensures calls == [] ==> err
      ensures secret.Some? && calls != [] ==> calls[0].auth.Some?
      ensures forall c | c in calls && c.auth.Some? :: secret.Some? && c.url == url &&
                Fits(url, secret.value, c.auth.value)
      ensures disk == if err then old(disk) else WithClone(old(disk), Parts(directory), Checkout(url, branch, holds(url,
                branch)))
      ensures acts == old(acts) + if err then [] else [Cloned(directory, url, branch)]
    {
      var auth: Option<Auth> := None;
      calls := [];
      if !remote.directory {
        return true, calls;
      }
      if secret.Some? {
        auth := GetAuth(url, secret.value, remote);
        if auth.None? {
          return true, calls;
        }
      }
      calls := [Call.Clone(url, auth, branch)];
      err := PlainClone(directory, url, branch, remote.clones, holds);
    }

    /**
     * Synthesizes at a path below a directory, whatever lies there by now: the innermost clone around that place, and
     * anything (`mixed`) if other clones lie in it.
     */
    method Synthesize(directory: string, path: string, mixed: Option<Workspace>) returns (r: Outcome<seq<Manifest>>)
      modifies this`acts
      ensures r == SynthesisIn(View(disk, Normalised(Split(path, '/'), Parts(directory)), mixed))
      ensures acts == old(acts) + if r.Parsed? then [SynthesizedAt(directory, path)] else []
    {
      var content := View(disk, Normalised(Split(path, '/'), Parts(directory)), mixed);
      if content.None? {
        return Failed;
      }
      r := Synthesizer.Synthesize(content.value);
      if r.Parsed? {
        acts := acts + [SynthesizedAt(directory, path)];
      }
    }

    /** os.RemoveAll: everything at or beneath the directory goes. */
    method RemoveAll(directory: string, removed: bool) returns (err: bool)
      modifies this`disk
      ensures err == !removed
      ensures disk == if removed then Without(old(disk), Parts(directory)) else old(disk)
    {
      if removed {
        disk := Without(disk, Parts(directory));
      }
      err := !removed;
    }
  }
}
