/** The proxy controller's reconciliation, as the sequence of effects it is. */
module ProxyController {
  import opened Wrappers
  import opened Api
  import opened ApiServer
  import opened Resourcer
  import opened ProxyRun
  import opened Workdir
  import Access
  import Render
  import Selection
  import Synthesizer

  /** The outcomes of one pass over the clusters: what listing them returns, and how each client and call fares. */
  datatype Pass<!T> = Pass(clusters: Option<seq<Selection.Cluster>>, config: nat -> Kubeconfig, call: (nat, nat) -> T)

  /**
   * What the world does during one reconciliation. `holds` is what each repository and branch holds when it is cloned,
   * `meddled` what other reconciliations make of the shared file system between the clone and the synthesis, `mixed`
   * what a synthesis finds where clones lie in one another, `foreign` what other clients send to the server before the
   * status write, `removed` the outcome of the deferred RemoveAll.
   */
  datatype World = World(secrets: Access.Secrets, access: Access.Remote, clone: Access.Remote,
                         holds: (string, string) -> Tree, meddled: Disk -> Disk, mixed: Option<Synthesizer.Workspace>,
                         apply: Pass<bool>, check: Pass<Probe>, foreign: seq<Request>, send: Render.Send, removed: bool)

  datatype Outcome = Returned(err: bool) | Panicked

  datatype Verdict = Goes | Fails | Panics

  function Keys(clusters: Option<seq<Selection.Cluster>>): Option<seq<Key>> {
    match clusters
    case None => None
    case Some(items) => Some(seq(|items|, i requires 0 <= i < |items| => items[i].key))
  }

  function ApplyWorldOf(selector: Selector, p: Pass<bool>): ApplyWorld {
    ApplyWorld(Keys(Selection.Picked(selector, p.clusters)), p.config, p.call)
  }

  function CheckWorldOf(selector: Selector, p: Pass<Probe>): CheckWorld {
    CheckWorld(Keys(Selection.Picked(selector, p.clusters)), p.config, p.call)
  }

  // ---------------------------------------------- how each stage ends in a world

  function SecretResult(k: Key, git: GitRepo, w: World): Result {
    if Access.FetchSecret(w.secrets, k.namespace, git).Some? then Ok else Fail
  }

  function HostsResult(k: Key, git: GitRepo, w: World): Result {
    if Access.FetchKnownHosts(w.secrets, k.namespace, git).Some? then Ok else Fail
  }

  function SecretOf(k: Key, git: GitRepo, w: World): string {
    match Access.FetchSecret(w.secrets, k.namespace, git) case Some(secret) => secret case None => ""
  }

  function AccessResult(k: Key, git: GitRepo, w: World): Result {
    if w.access.anonymous || (Access.AuthFor(git.url, SecretOf(k, git, w), w.access).Some? &&
        w.access.authenticated) then Ok else Fail
  }

  /** The clone presents the secret exactly if the anonymous listing failed. */
  predicate Clones(k: Key, git: GitRepo, w: World) {
    w.clone.directory && w.clone.clones &&
        (w.access.anonymous || Access.AuthFor(git.url, SecretOf(k, git, w), w.clone).Some?)
  }

  function CloneResult(k: Key, git: GitRepo, w: World): Result {
    if Clones(k, git, w) then Fetched(w.holds(git.url, git.reference)) else Fail
  }

  /** The file system right after the clone. */
  function DiskWithClone(disk: Disk, k: Key, git: GitRepo, w: World): Disk {
    WithClone(disk, PlaceOf(Job(k, git.reference, git.path)), Checkout(git.url, git.reference, w.holds(git.url,
        git.reference)))
  }

  /** What the synthesis finds where its path leads. */
  function Found(disk: Disk, k: Key, git: GitRepo, w: World): Option<Synthesizer.Workspace> {
    View(w.meddled(DiskWithClone(disk, k, git, w)), SpotOf(Job(k, git.reference, git.path)), w.mixed)
  }

  function ResourcesOf(disk: Disk, k: Key, git: GitRepo, w: World): seq<Manifest> {
    match SynthesisIn(Found(disk, k, git, w)) case Parsed(resources) => resources case Failed => []
  }

  function ApplyResultOf(selector: Selector, w: World, resources: seq<Manifest>): Result {
    match ApplyVerdict(ApplyWorldOf(selector, w.apply), resources)
    case Applied => Ok
    case NotListed => Fail
    case ApplyPanicked => Panic
  }

  function CheckResultOf(selector: Selector, w: World, resources: seq<Manifest>): Result {
    match CheckVerdict(CheckWorldOf(selector, w.check), resources)
    case Checked(missing) => Saw(missing)
    case CheckFailed => Fail
    case CheckPanicked => Panic
  }

  /** How the seven stages before the status write end; a stage that is not reached does not matter. */
  function Results(disk: Disk, k: Key, p: Proxy, w: World): seq<Result>
    requires p.spec.git.Some?
  {
    var git, selector := p.spec.git.value, p.spec.selector;
    var resources := ResourcesOf(disk, k, git, w);
    [SecretResult(k, git, w), HostsResult(k, git, w), AccessResult(k, git, w), CloneResult(k, git, w),
     Held(Found(disk, k, git, w)), ApplyResultOf(selector, w, resources), CheckResultOf(selector, w, resources)]
  }

  /** The run of the stage machine that a reconciliation performs. */
  function FinalRun(disk: Disk, k: Key, p: Proxy, w: World): Run
    requires p.spec.git.Some?
  {
    AdvanceAll(Start(k, p), Results(disk, k, p, w))
  }

  /** The only write: the status, with the version that was read. */
  function Written(s: Server, r: Run, w: World): Server {
    if r.stage != Writing then s
    else
      var s1 := ServeAll(s, w.foreign);
      if w.send.NotSent? then s1 else UpdateProxyStatus(s1, r.key, r.read.(conditions := r.conditions)).0
  }

  /** Secret, known hosts and access are all right. */
  predicate Accessible(k: Key, git: GitRepo, w: World) {
    SecretResult(k, git, w).Ok? && HostsResult(k, git, w).Ok? && AccessResult(k, git, w).Ok?
  }

  /** What the clusters hold after an apply. */
  function RolledOut(clusters: map<Key, Contents>, selector: Selector, w: World,
                     resources: seq<Manifest>): map<Key, Contents> {
    var a := ApplyWorldOf(selector, w.apply);
    if a.listing.None? then clusters else ApplyFrom(clusters, a.listing.value, resources, a, 0)
  }

  /**
   * The events of a ready run: attempts to apply, then lookups only, which found every resource on every selected
   * cluster.
   */
  ghost predicate LookedAfterApplying(events: seq<Event>, w: CheckWorld, resources: seq<Manifest>) {
    exists m | 0 <= m <= |events| ::
      && (forall e | e in events[..m] :: e.ApplyListed? || e.ApplySent?)
      && (forall e | e in events[m..] :: e.CheckListed? || e.Looked?)
      && SawAll(events[m..], w, resources)
  }

  /** Every resource was looked up, and found, on every listed cluster that the selector selects. */
  ghost predicate SawEverywhere(events: seq<Event>, selector: Selector, clusters: Option<seq<Selection.Cluster>>,
                                resources: seq<Manifest>) {
    && clusters.Some?
    && forall c, m | c in clusters.value && Selection.Selects(selector, c.labels) && m in resources ::
         Looked(c.key, AddressOf(m), Probe.Found) in events
  }

  lemma ReadySawEverywhere(events: seq<Event>, selector: Selector, p: Pass<Probe>, resources: seq<Manifest>)
    requires LookedAfterApplying(events, CheckWorldOf(selector, p), resources)
    ensures SawEverywhere(events, selector, p.clusters, resources)
  {
    forall c, m | c in p.clusters.value && Selection.Selects(selector, c.labels) && m in resources
      ensures Looked(c.key, AddressOf(m), Probe.Found) in events
    {
      var picked := Selection.Selected(selector, p.clusters.value);
      Selection.MatchesByValues(selector, c.labels);
      Selection.SelectedExactly(selector, p.clusters.value, c);
      var i :| 0 <= i < |picked| && picked[i] == c;
      var j :| 0 <= j < |resources| && resources[j] == m;
      assert Keys(Some(picked)).value[i] == c.key;
    }
  }

  /** The first j resources are those that a cluster accepts before it refuses one. */
  ghost predicate AcceptsFirst(call: (nat, nat) -> bool, m: nat, j: nat, n: nat) {
    && j <= n
    && (forall i: nat | i < j :: call(m, i))
    && (j < n ==> !call(m, j))
  }

  /**
   * What applying does to the picked clusters: those that the loop gets to hold, under their own keys, the accepted
   * resources on top of what they held; nothing else changes.
   */
  ghost predicate RollsOut(before: map<Key, Contents>, after: map<Key, Contents>, picked: seq<Selection.Cluster>,
                           p: Pass<bool>, resources: seq<Manifest>) {
    && (forall m: nat, j: nat | m < |picked| && (forall l: nat | l <= m :: !Blocks(p.config, resources, l)) &&
            AcceptsFirst(p.call, m, j, |resources|) ::
          At(after, picked[m].key) == Overlay(At(before, picked[m].key), if Usable(p.config(m)) then resources[..j]
              else []))
    && (forall k | (forall m: nat | m < |picked| && picked[m].key == k ::
            exists l: nat | l <= m :: Blocks(p.config, resources, l)) :: At(after, k) == At(before, k))
  }

  lemma LookupsComeLast(before: seq<Event>, middle: seq<Event>, after: seq<Event>, w: CheckWorld,
          resources: seq<Manifest>)
    requires before <= middle && LookedUp(middle, after, w, resources, true)
    requires forall e | e in middle[|before|..] :: e.ApplyListed? || e.ApplySent?
    ensures LookedAfterApplying(after[|before|..], w, resources)
  {
    var events, m := after[|before|..], |middle| - |before|;
    assert events[..m] == middle[|before|..] && events[m..] == after[|middle|..];
  }

  /** How many resources a cluster receives. */
  lemma ReceivesAccepted(w: ApplyWorld, m: nat, j: nat, n: nat)
    requires AcceptsFirst(w.accepts, m, j, n)
    ensures Received(w, n, m) == if Usable(w.config(m)) then j else 0
  {
    var k := Reached(w.accepts, m, n, 0);
    assert !(k < j) && !(j < k);
  }

  lemma RollsOutAt(before: map<Key, Contents>, items: seq<Key>, w: ApplyWorld, resources: seq<Manifest>, m: nat, j: nat)
    requires Distinct(items) && m < |items| && AcceptsFirst(w.accepts, m, j, |resources|)
    requires forall l: nat | l <= m :: !Blocks(w.config, resources, l)
    ensures At(ApplyFrom(before, items, resources, w, 0), items[m])
         == Overlay(At(before, items[m]), if Usable(w.config(m)) then resources[..j] else [])
  {
    ApplyEffect(before, items, resources, w);
    ReceivesAccepted(w, m, j, |resources|);
    assert m < FirstBlocked(w.config, resources, |items|, 0);
  }

  lemma StaysAt(before: map<Key, Contents>, items: seq<Key>, w: ApplyWorld, resources: seq<Manifest>, k: Key)
    requires Distinct(items)
    requires forall m: nat | m < |items| && items[m] == k :: exists l: nat | l <= m :: Blocks(w.config, resources, l)
    ensures At(ApplyFrom(before, items, resources, w, 0), k) == At(before, k)
  {
    ApplyEffect(before, items, resources, w);
    var stop := FirstBlocked(w.config, resources, |items|, 0);
    assert forall m: nat | m < stop :: items[m] != k;
  }

  predicate DistinctClusters(clusters: seq<Selection.Cluster>) {
    forall i, j | 0 <= i < j < |clusters| :: clusters[i].key != clusters[j].key
  }

  lemma ListedRollsOut(before: map<Key, Contents>, picked: seq<Selection.Cluster>, p: Pass<bool>,
                       resources: seq<Manifest>)
    requires DistinctClusters(picked)
    ensures var w := ApplyWorld(Keys(Some(picked)), p.config, p.call);
            RollsOut(before, ApplyFrom(before, w.listing.value, resources, w, 0), picked, p, resources)
  {
    var w := ApplyWorld(Keys(Some(picked)), p.config, p.call);
    var items := w.listing.value;
    forall m: nat, j: nat | m < |picked| && (forall l: nat | l <= m :: !Blocks(p.config, resources, l)) &&
        AcceptsFirst(p.call, m, j, |resources|)
      ensures At(ApplyFrom(before, items, resources, w, 0), picked[m].key)
           == Overlay(At(before, picked[m].key), if Usable(p.config(m)) then resources[..j] else [])
    {
      RollsOutAt(before, items, w, resources, m, j);
    }
    forall k | (forall m: nat | m < |picked| && picked[m].key == k ::
        exists l: nat | l <= m :: Blocks(p.config, resources, l))
      ensures At(ApplyFrom(before, items, resources, w, 0), k) == At(before, k)
    {
      StaysAt(before, items, w, resources, k);
    }
  }

  /** Clusters of different keys receive exactly that, and nothing changes if they cannot be listed. */
  lemma RolledOutExactly(clusters: map<Key, Contents>, selector: Selector, w: World, resources: seq<Manifest>)
    ensures var picked, after := Selection.Picked(selector, w.apply.clusters), RolledOut(clusters, selector, w,
              resources);
            if picked.None? then after == clusters
            else DistinctClusters(picked.value) ==> RollsOut(clusters, after, picked.value, w.apply, resources)
  {
    var picked := Selection.Picked(selector, w.apply.clusters);
    if picked.Some? && DistinctClusters(picked.value) {
      ListedRollsOut(clusters, picked.value, w.apply, resources);
    }
  }

  /** A run once its repository is cloned, or once that failed. */
  function FetchedRun(r: Run, accessible: bool, clone: Result): Run
    requires r.read.spec.git.Some?
  {
    if accessible then Advance(r.(stage := Cloning), clone) else r.(stage := Stopped)
  }

  /** One of the three stages before the clone, none of which panics. */
  lemma FetchStage(r: Run, os: seq<Result>, i: nat, next: Stage)
    requires r.read.spec.git.Some? && !r.panicked && i < |os| && (os[i].Ok? || os[i].Fail?)
    requires (r.stage, next) in {(FetchingSecret, FetchingHosts), (FetchingHosts, CheckingAccess), (CheckingAccess,
              Cloning)}
    ensures AdvanceAll(r, os[i..]) == if os[i].Ok? then AdvanceAll(r.(stage := next),
              os[i + 1..]) else r.(stage := Stopped)
  {
    AdvanceOne(r, os, i);
  }

  lemma FetchingComesFirst(r: Run, os: seq<Result>)
    requires r.read.spec.git.Some? && r.stage == FetchingSecret && !r.panicked
    requires |os| > 4 && forall i | 0 <= i < 3 :: os[i].Ok? || os[i].Fail?
    ensures var fetched := FetchedRun(r, os[0].Ok? && os[1].Ok? && os[2].Ok?, os[3]);
            AdvanceAll(r, os) == if fetched.stage == Stopped then fetched else AdvanceAll(fetched, os[4..])
  {
    assert os[0..] == os;
    FetchStage(r, os, 0, FetchingHosts);
    FetchStage(r.(stage := FetchingHosts), os, 1, CheckingAccess);
    FetchStage(r.(stage := CheckingAccess), os, 2, Cloning);
    AdvanceOne(r.(stage := Cloning), os, 3);
  }

  /** Apply, and then check unless that stopped the run. */
  function Carried(r: Run, apply: Result, check: Result): Run
    requires r.read.spec.git.Some?
  {
    var r' := Advance(r, apply);
    if r'.stage == Stopped then r' else Advance(r', check)
  }

  lemma CarriedReady(r: Run, apply: Result, check: Result)
    requires r.read.spec.git.Some? && r.stage == Applying && !r.ready
    ensures var r' := Carried(r, apply, check);
            && (r'.ready <==> apply.Ok? && check == Saw(false))
            && (r'.ready ==> r'.stage == Writing && r'.resources == r.resources)
  {
  }

  lemma DeployingComesLast(r: Run, os: seq<Result>)
    requires r.read.spec.git.Some? && |os| == 7
    ensures AdvanceAll(r, os[5..]) == Carried(r, os[5], os[6])
  {
    AdvanceOne(r, os, 5);
    AdvanceOne(Advance(r, os[5]), os, 6);
  }

  /** Whether the run gets as far as applying. */
  predicate Prepared(disk: Disk, k: Key, p: Proxy, w: World)
    requires p.spec.git.Some?
  {
    var git := p.spec.git.value;
    Accessible(k, git, w) && Clones(k, git, w) && SynthesisIn(Found(disk, k, git, w)).Parsed?
  }

  /** A run that is about to apply, or that stopped before. */
  function PreparedRun(disk: Disk, k: Key, p: Proxy, w: World): Run
    requires p.spec.git.Some?
  {
    var git := p.spec.git.value;
    var r := FetchedRun(Start(k, p), Accessible(k, git, w), CloneResult(k, git, w));
    if r.stage == Stopped then r else Advance(r, Held(Found(disk, k, git, w)))
  }

  /** The run of a reconciliation, in its two halves. */
  lemma FinalRunIs(disk: Disk, k: Key, p: Proxy, w: World)
    requires p.spec.git.Some?
    ensures var prepared, selector := PreparedRun(disk, k, p, w), p.spec.selector;
            var resources := ResourcesOf(disk, k, p.spec.git.value, w);
            FinalRun(disk, k, p, w) ==
              if prepared.stage == Stopped then prepared
              else Carried(prepared, ApplyResultOf(selector, w, resources), CheckResultOf(selector, w, resources))
  {
    var os, git := Results(disk, k, p, w), p.spec.git.value;
    var fetched := FetchedRun(Start(k, p), Accessible(k, git, w), CloneResult(k, git, w));
    FetchingComesFirst(Start(k, p), os);
    AdvanceOne(fetched, os, 4);
    DeployingComesLast(PreparedRun(disk, k, p, w), os);
  }

  lemma PreparedRunIs(disk: Disk, k: Key, p: Proxy, w: World)
    requires p.spec.git.Some?
    ensures var r, git := PreparedRun(disk, k, p, w), p.spec.git.value;
            && r.key == k && r.read == p && !r.panicked && !r.ready
            && r.stage == (if Prepared(disk, k, p, w) then Applying else Stopped)
            && (Prepared(disk, k, p, w) ==> r.conditions == p.conditions && r.resources == ResourcesOf(disk, k, git, w))
  {
  }

  lemma PreparedRunClone(disk: Disk, k: Key, p: Proxy, w: World)
    requires p.spec.git.Some? && Accessible(k, p.spec.git.value, w) && Clones(k, p.spec.git.value, w)
    ensures var git := p.spec.git.value;
            PreparedRun(disk, k, p, w).cloned == Some(Checkout(git.url, git.reference, w.holds(git.url, git.reference)))
  {
  }

  lemma CarriedEnds(r: Run, apply: Result, check: Result)
    requires r.read.spec.git.Some? && r.stage == Applying
    ensures Carried(r, apply, check).stage == Writing || Carried(r, apply, check).stage == Stopped
  {
  }

  lemma FinalRunEnds(disk: Disk, k: Key, p: Proxy, w: World)
    requires p.spec.git.Some?
    ensures FinalRun(disk, k, p, w).stage == Writing || FinalRun(disk, k, p, w).stage == Stopped
  {
    var resources := ResourcesOf(disk, k, p.spec.git.value, w);
    FinalRunIs(disk, k, p, w);
    PreparedRunIs(disk, k, p, w);
    if PreparedRun(disk, k, p, w).stage != Stopped {
      CarriedEnds(PreparedRun(disk, k, p, w), ApplyResultOf(p.spec.selector, w, resources),
          CheckResultOf(p.spec.selector, w, resources));
    }
  }

  lemma CarriedKeepsClone(r: Run, apply: Result, check: Result)
    requires r.read.spec.git.Some? && (r.stage == Applying || r.stage == Stopped)
    ensures Carried(r, apply, check).cloned == r.cloned
  {
  }

  lemma FinalRunClone(disk: Disk, k: Key, p: Proxy, w: World)
    requires p.spec.git.Some? && Accessible(k, p.spec.git.value, w) && Clones(k, p.spec.git.value, w)
    ensures var git := p.spec.git.value;
            FinalRun(disk, k, p, w).cloned == Some(Checkout(git.url, git.reference, w.holds(git.url, git.reference)))
  {
    var resources := ResourcesOf(disk, k, p.spec.git.value, w);
    FinalRunIs(disk, k, p, w);
    PreparedRunIs(disk, k, p, w);
    PreparedRunClone(disk, k, p, w);
    CarriedKeepsClone(PreparedRun(disk, k, p, w), ApplyResultOf(p.spec.selector, w, resources),
        CheckResultOf(p.spec.selector, w, resources));
  }

  /** What a reconciliation has done before it applies. */
  function PreparedActs(disk: Disk, k: Key, p: Proxy, w: World): seq<Act>
    requires p.spec.git.Some?
  {
    var git := p.spec.git.value;
    if !Accessible(k, git, w) || !Clones(k, git, w) then []
    else
      [Cloned(Directory(k, git.reference), git.url, git.reference)]
      + (if Prepared(disk, k, p, w) then [SynthesizedAt(Directory(k, git.reference), git.path)] else [])
  }

  /** The conditions of the working copy before it applies. */
  function PreparedConditions(disk: Disk, k: Key, p: Proxy, w: World): map<string, Condition>
    requires p.spec.git.Some?
  {
    if !Accessible(k, p.spec.git.value, w) then p.conditions
    else if !Clones(k, p.spec.git.value, w) then p.conditions[AVAILABLE := CLONE_FAILED]
    else if !Prepared(disk, k, p, w) then p.conditions[AVAILABLE := SYNTH_FAILED]
    else p.conditions
  }

  lemma PreparedRunRecord(disk: Disk, k: Key, p: Proxy, w: World)
    requires p.spec.git.Some?
    ensures PreparedRun(disk, k, p, w).acts == PreparedActs(disk, k, p, w)
    ensures PreparedRun(disk, k, p, w).conditions == PreparedConditions(disk, k, p, w)
  {
  }

  /** The file system when the synthesis is over. */
  function DiskReached(disk: Disk, k: Key, p: Proxy, w: World): Disk
    requires p.spec.git.Some?
  {
    var git := p.spec.git.value;
    if Accessible(k, git, w) && Clones(k, git, w) then w.meddled(DiskWithClone(disk, k, git, w)) else disk
  }

  /** What the clusters hold after a reconciliation. */
  function FleetAfter(clusters: map<Key, Contents>, disk: Disk, k: Key, p: Proxy, w: World): map<Key, Contents>
    requires p.spec.git.Some?
  {
    if Prepared(disk, k, p, w) then RolledOut(clusters, p.spec.selector, w, ResourcesOf(disk, k, p.spec.git.value,
        w)) else clusters
  }

  class Reconciler {
    var server: Server
    const fleet: Fleet
    const container: Container

    constructor (server: Server, fleet: Fleet, container: Container)
      ensures this.server == server && this.fleet == fleet && this.container == container
    {
      this.server, this.fleet, this.container := server, fleet, container;
    }

    /**
     * Secret, known hosts, access and clone, and every call made to the repository. What is cloned is the branch that
     * the proxy names, of the repository that the proxy names, into the proxy's own directory.
     */
    method FetchRepository(k: Key, p: Proxy, w: World)
      returns (cloned: bool, conditions: map<string, Condition>, calls: seq<Access.Call>)
      requires p.spec.git.Some?
      modifies container
      ensures cloned <==> Accessible(k, p.spec.git.value, w) && Clones(k, p.spec.git.value, w)
      ensures conditions == if Accessible(k, p.spec.git.value, w) &&
                !cloned then p.conditions[AVAILABLE := CLONE_FAILED] else p.conditions
      ensures container.disk == if cloned then DiskWithClone(old(container.disk), k, p.spec.git.value,
                w) else old(container.disk)
      ensures var git := p.spec.git.value;
              container.acts == old(container.acts) + if cloned then [Cloned(Directory(k, git.reference), git.url,
                  git.reference)] else []
      ensures cloned ==> exists auth :: Access.Call.Clone(p.spec.git.value.url, auth,
                p.spec.git.value.reference) in calls
      ensures forall c | c in calls && c.auth.Some? ::
                c.url == p.spec.git.value.url && Access.Fits(c.url, SecretOf(k, p.spec.git.value, w), c.auth.value)
      ensures forall c | c in calls && c.Clone? :: c.auth.Some? <==> !w.access.anonymous
    {
      var git := p.spec.git.value;
      conditions, calls, cloned := p.conditions, [], false;
      var directory := Directory(k, git.reference);
      var secretRef := Access.FetchSecret(w.secrets, k.namespace, git);
      if secretRef.None? {
        return;
      }
      var knownHosts := Access.FetchKnownHosts(w.secrets, k.namespace, git);
      if knownHosts.None? {
        return;
      }
      var accessible, requiresAuth, failed;
      accessible, requiresAuth, failed, calls := Access.CheckAccess(git.url, secretRef.value, w.access);
      if failed {
        return;
      }
      if !requiresAuth {
        secretRef := None;
      }
      var cloneCalls;
      failed, cloneCalls := container.Clone(git.url, secretRef, git.reference, directory, w.clone, w.holds);
      ghost var listings := calls;
      calls := calls + cloneCalls;
      if failed {
        conditions := conditions[AVAILABLE := CLONE_FAILED];
        return;
      }
      cloned := true;
      assert calls[|listings|] == cloneCalls[0] == Access.Call.Clone(git.url, cloneCalls[0].auth, git.reference);
    }

    /** Everything before the apply: what was parsed, if it got that far, and the conditions of the working copy. */
    method Prepare(k: Key, p: Proxy, w: World)
      returns (resources: Option<seq<Manifest>>, conditions: map<string, Condition>)
      requires p.spec.git.Some?
      modifies container
      ensures var disk := old(container.disk);
              && resources == (if Prepared(disk, k, p, w) then Some(ResourcesOf(disk, k, p.spec.git.value,
                  w)) else None)
              && conditions == PreparedConditions(disk, k, p, w)
              && container.disk == DiskReached(disk, k, p, w)
              && container.acts == old(container.acts) + PreparedActs(disk, k, p, w)
    {
      var git := p.spec.git.value;
      var cloned, calls;
      cloned, conditions, calls := FetchRepository(k, p, w);
      if !cloned {
        return None, conditions;
      }
      container.disk := w.meddled(container.disk);
      var synthesis := container.Synthesize(Directory(k, git.reference), git.path, w.mixed);
      if synthesis.Failed? {
        return None, conditions[AVAILABLE := SYNTH_FAILED];
      }
      resources := Some(synthesis.value);
    }

    /** Lists the selected clusters and applies to them. */
    method ApplyAll(selector: Selector, w: World, resources: seq<Manifest>) returns (r: ApplyResult)
      modifies fleet, container`acts
      ensures r == ApplyVerdict(ApplyWorldOf(selector, w.apply), resources)
      ensures fleet.clusters == RolledOut(old(fleet.clusters), selector, w, resources)
      ensures var picked := Selection.Picked(selector, w.apply.clusters);
              if picked.None? then fleet.clusters == old(fleet.clusters)
              else DistinctClusters(picked.value) ==>
                RollsOut(old(fleet.clusters), fleet.clusters, picked.value, w.apply, resources)
      ensures old(fleet.events) <= fleet.events
      ensures forall e | e in fleet.events[|old(fleet.events)|..] :: e.ApplyListed? || e.ApplySent?
      ensures container.acts == old(container.acts) + if r == Applied then [AppliedTo(selector, resources)] else []
    {
      RolledOutExactly(fleet.clusters, selector, w, resources);
      var clusters := Selection.ClusterList(selector, w.apply.clusters);
      r := fleet.Apply(ApplyWorld(Keys(clusters), w.apply.config, w.apply.call), resources);
      if r == Applied {
        container.acts := container.acts + [AppliedTo(selector, resources)];
      }
    }

    /** Lists the selected clusters again and looks for everything that was parsed. */
    method CheckAll(selector: Selector, w: World, resources: seq<Manifest>) returns (r: CheckResult)
      modifies fleet`events, container`acts
      ensures r == CheckVerdict(CheckWorldOf(selector, w.check), resources)
      ensures LookedUp(old(fleet.events), fleet.events, CheckWorldOf(selector, w.check), resources, r == Checked(false))
      ensures container.acts == old(container.acts) + if r.Checked? then [CheckedOn(selector, resources)] else []
    {
      var clusters := Selection.ClusterList(selector, w.check.clusters);
      r := fleet.Check(CheckWorld(Keys(clusters), w.check.config, w.check.call), resources);
      if r.Checked? {
        container.acts := container.acts + [CheckedOn(selector, resources)];
      }
    }

    /** Applying and checking: the verdict of the run so far, its final conditions and what it did to the fleet. */
    method Deploy(p: Proxy, w: World, resources: seq<Manifest>, ghost run0: Run, ghost base: seq<Act>)
      returns (r: Verdict, conditions: map<string, Condition>, ghost run: Run)
      requires run0.read == p && p.spec.git.Some? && run0.conditions == p.conditions
      requires run0.stage == Applying && run0.resources == resources && !run0.panicked && !run0.ready
      requires container.acts == base + run0.acts
      modifies fleet, container`acts
      ensures run == Carried(run0, ApplyResultOf(p.spec.selector, w, resources), CheckResultOf(p.spec.selector, w,
                resources))
      ensures run.conditions == conditions
      ensures r == if run.panicked then Panics else if run.stage == Writing then Goes else Fails
      ensures fleet.clusters == RolledOut(old(fleet.clusters), p.spec.selector, w, resources)
      ensures old(fleet.events) <= fleet.events
      ensures run.ready ==> LookedAfterApplying(fleet.events[|old(fleet.events)|..], CheckWorldOf(p.spec.selector,
                w.check), resources)
      ensures container.acts == base + run.acts
    {
      ghost var before := fleet.events;
      conditions := p.conditions;
      var applied := ApplyAll(p.spec.selector, w, resources);
      ghost var middle := fleet.events;
      run := Advance(run0, ApplyResultOf(p.spec.selector, w, resources));
      assert container.acts == base + run.acts;
      if applied.ApplyPanicked? {
        return Panics, conditions, run;
      }
      if applied.NotListed? {
        conditions := conditions[READY := APPLY_FAILED];
        return Fails, conditions, run;
      }
      var checked := CheckAll(p.spec.selector, w, resources);
      run := Advance(run, CheckResultOf(p.spec.selector, w, resources));
      assert container.acts == base + run.acts;
      if checked.CheckPanicked? {
        return Panics, conditions, run;
      }
      if checked.CheckFailed? {
        return Fails, conditions, run;
      }
      if !checked.missing {
        conditions := conditions[READY := IS_READY];
        LookupsComeLast(before, middle, fleet.events, CheckWorldOf(p.spec.selector, w.check), resources);
      }
      r := Goes;
    }

    /** The only write of a reconciliation, carrying the version that was read. */
    method UpdateStatus(k: Key, p: Proxy, w: World) returns (err: bool)
      modifies this
      ensures var s1 := ServeAll(old(server), w.foreign);
              if w.send.NotSent? then server == s1 && err
              else
                && server == UpdateProxyStatus(s1, k, p).0
                && (err <==> w.send.ReplyLost? || !UpdateProxyStatus(s1, k, p).1.Accepted?)
    {
      server := ServeAll(server, w.foreign);
      if w.send.NotSent? {
        return true;
      }
      var (updated, reply) := UpdateProxyStatus(server, k, p);
      server := updated;
      err := w.send.ReplyLost? || !reply.Accepted?;
    }

    /** All stages but the status write. */
    method RunStages(k: Key, p: Proxy, w: World)
      returns (r: Verdict, conditions: map<string, Condition>, ghost run: Run)
      requires p.spec.git.Some?
      modifies fleet, container
      ensures run == FinalRun(old(container.disk), k, p, w) && run.conditions == conditions
      ensures r == if run.panicked then Panics else if run.stage == Writing then Goes else Fails
      ensures fleet.clusters == FleetAfter(old(fleet.clusters), old(container.disk), k, p, w)
      ensures container.disk == DiskReached(old(container.disk), k, p, w)
      ensures container.acts == old(container.acts) + run.acts
      ensures old(fleet.events) <= fleet.events
      ensures run.ready ==>
                LookedAfterApplying(fleet.events[|old(fleet.events)|..], CheckWorldOf(p.spec.selector, w.check),
                                    ResourcesOf(old(container.disk), k, p.spec.git.value, w))
    {
      ghost var disk, before := container.disk, container.acts;
      FinalRunIs(disk, k, p, w);
      PreparedRunIs(disk, k, p, w);
      PreparedRunRecord(disk, k, p, w);
      run := PreparedRun(disk, k, p, w);
      var resources;
      resources, conditions := Prepare(k, p, w);
      if resources.None? {
        return Fails, conditions, run;
      }
      r, conditions, run := Deploy(p, w, resources.value, run, before);
    }

    /** Everything between registering the clean-up and the clean-up. */
    method ReconcileFound(k: Key, p: Proxy, w: World) returns (r: Verdict, ghost run: Run)
      requires p.spec.git.Some?
      modifies this, fleet, container
      ensures run == FinalRun(old(container.disk), k, p, w)
      ensures server == Written(old(server), run, w)
      ensures r.Panics? <==> run.panicked
      ensures fleet.clusters == FleetAfter(old(fleet.clusters), old(container.disk), k, p, w)
      ensures container.disk == DiskReached(old(container.disk), k, p, w)
      ensures container.acts == old(container.acts) + run.acts
      ensures old(fleet.events) <= fleet.events
      ensures run.ready ==>
                LookedAfterApplying(fleet.events[|old(fleet.events)|..], CheckWorldOf(p.spec.selector, w.check),
                                    ResourcesOf(old(container.disk), k, p.spec.git.value, w))
    {
      var conditions;
      FinalRunKeeps(container.disk, k, p, w);
      r, conditions, run := RunStages(k, p, w);
      if r.Goes? {
        var err := UpdateStatus(k, p.(conditions := conditions), w);
        r := if err then Fails else Goes;
      }
    }

    /**
     * One reconciliation; `found` is what the read returns. The clean-up's outcome replaces every error of the run. A
     * proxy without a repository panics before the clean-up is registered. What was done is what the run's acts say.
     */
    method Reconcile(k: Key, found: Option<Proxy>, w: World) returns (r: Outcome)
      modifies this, fleet, container
      ensures r == OutcomeOf(old(container.disk), k, found, w)
      ensures server == ServerAfter(old(server), old(container.disk), k, found, w)
      ensures fleet.clusters ==
                if Dereferenced(found) then FleetAfter(old(fleet.clusters), old(container.disk), k, found.value,
                    w) else old(fleet.clusters)
      ensures container.disk == DiskLeft(old(container.disk), k, found, w)
      ensures Dereferenced(found) && w.removed ==>
                forall q | q in container.disk :: !(Parts(Directory(k, found.value.spec.git.value.reference)) <= q)
      ensures container.acts ==
                old(container.acts) + if Dereferenced(found) then FinalRun(old(container.disk), k, found.value,
                    w).acts else []
      ensures old(fleet.events) <= fleet.events
      ensures Dereferenced(found) && FinalRun(old(container.disk), k, found.value, w).ready ==>
                && LookedAfterApplying(fleet.events[|old(fleet.events)|..], CheckWorldOf(found.value.spec.selector,
                    w.check), ResourcesOf(old(container.disk), k, found.value.spec.git.value, w))
                && SawEverywhere(fleet.events[|old(fleet.events)|..], found.value.spec.selector, w.check.clusters,
                    ResourcesOf(old(container.disk), k, found.value.spec.git.value, w))
    {
      if found.None? {
        return Returned(true);
      }
      if found.value.spec.git.None? {
        return Panicked;
      }
      ghost var disk, before := container.disk, fleet.events;
      var ended, run := ReconcileFound(k, found.value, w);
      if run.ready {
        ReadySawEverywhere(fleet.events[|before|..], found.value.spec.selector, w.check,
            ResourcesOf(disk, k, found.value.spec.git.value, w));
      }
      var err := container.RemoveAll(Directory(k, found.value.spec.git.value.reference), w.removed);
      r := if ended.Panics? then Panicked else Returned(err);
    }
  }

  /** The read found a proxy, and it names a repository. */
  predicate Dereferenced(found: Option<Proxy>) {
    found.Some? && found.value.spec.git.Some?
  }

  function OutcomeOf(disk: Disk, k: Key, found: Option<Proxy>, w: World): Outcome {
    if found.None? then Returned(true)
    else if found.value.spec.git.None? || FinalRun(disk, k, found.value, w).panicked then Panicked
    else Returned(!w.removed)
  }

  function ServerAfter(s: Server, disk: Disk, k: Key, found: Option<Proxy>, w: World): Server {
    if Dereferenced(found) then Written(s, FinalRun(disk, k, found.value, w), w) else s
  }

  /** The file system after the clean-up. */
  function DiskLeft(disk: Disk, k: Key, found: Option<Proxy>, w: World): Disk {
    if !Dereferenced(found) then disk
    else
      var reached := DiskReached(disk, k, found.value, w);
      if w.removed then Without(reached, PlaceOf(JobOf(k, found.value))) else reached
  }

  // ------------------------------------------------------------------ results

  lemma FinalRunKeeps(disk: Disk, k: Key, p: Proxy, w: World)
    requires p.spec.git.Some?
    ensures var run := FinalRun(disk, k, p, w); run.key == k && run.read == p && OnPlan(run)
  {
    StartIsOnPlan(k, p);
    AdvanceAllStaysOnPlan(Start(k, p), Results(disk, k, p, w));
  }

  /**
   * Ready is set exactly if everything was prepared, the apply loop was entered and left, and the check found
   * everything.
   */
  lemma ReadyExactly(disk: Disk, k: Key, p: Proxy, w: World)
    requires p.spec.git.Some?
    ensures var run, selector := FinalRun(disk, k, p, w), p.spec.selector;
            var resources := ResourcesOf(disk, k, p.spec.git.value, w);
            && (run.ready <==>
                  && Prepared(disk, k, p, w)
                  && ApplyVerdict(ApplyWorldOf(selector, w.apply), resources) == Applied
                  && CheckVerdict(CheckWorldOf(selector, w.check), resources) == Checked(false))
            && (run.ready ==> run.stage == Writing && run.resources == resources)
  {
    FinalRunIs(disk, k, p, w);
    PreparedRunIs(disk, k, p, w);
    var run, selector, resources := PreparedRun(disk, k, p, w), p.spec.selector, ResourcesOf(disk, k, p.spec.git.value,
        w);
    if run.stage != Stopped {
      CarriedReady(run, ApplyResultOf(selector, w, resources), CheckResultOf(selector, w, resources));
    }
  }

  /** Secrets are there, the repository can be listed with them or without, and so it can be cloned. */
  ghost predicate Fetchable(k: Key, git: GitRepo, w: World) {
    && git.secretRef != "" && Access.HasEntry(w.secrets, k.namespace, git.secretRef, git.secretKey)
    && (git.knownHostsKey != "" ==> Access.HasEntry(w.secrets, k.namespace, git.secretRef, git.knownHostsKey))
    && w.clone.directory && w.clone.clones
    && var secret := w.secrets.data[Key(k.namespace, git.secretRef)][git.secretKey];
       || w.access.anonymous
       || (&& Access.AuthFor(git.url, secret, w.access).Some? && w.access.authenticated
           && Access.AuthFor(git.url, secret, w.clone).Some?)
  }

  lemma FetchableExactly(k: Key, git: GitRepo, w: World)
    ensures Accessible(k, git, w) && Clones(k, git, w) <==> Fetchable(k, git, w)
  {
  }

  /** Applying neither fails to list its clusters nor gets to one without a client with a resource in hand. */
  ghost predicate AppliesThrough(picked: Option<seq<Selection.Cluster>>, p: Pass<bool>, resources: seq<Manifest>) {
    && picked.Some?
    && (resources != [] ==> forall m: nat :: !ReachesNil(p.config, |picked.value|, m))
  }

  /** Checking lists its clusters, has a client for each, unless there is nothing to look up, and finds everything. */
  ghost predicate FindsAll(picked: Option<seq<Selection.Cluster>>, p: Pass<Probe>, resources: seq<Manifest>) {
    && picked.Some?
    && (forall i: nat | i < |picked.value| :: !Blocks(p.config, resources, i))
    && (forall i: nat, j: nat | i < |picked.value| && j < |resources| :: p.call(i, j) == Probe.Found)
  }

  lemma AppliesThroughExactly(selector: Selector, p: Pass<bool>, resources: seq<Manifest>)
    ensures ApplyVerdict(ApplyWorldOf(selector, p), resources) == Applied <==>
              AppliesThrough(Selection.Picked(selector, p.clusters), p, resources)
  {
    ApplyPanicsExactly(ApplyWorldOf(selector, p), resources);
  }

  lemma FindsAllExactly(selector: Selector, p: Pass<Probe>, resources: seq<Manifest>)
    ensures CheckVerdict(CheckWorldOf(selector, p), resources) == Checked(false) <==>
              FindsAll(Selection.Picked(selector, p.clusters), p, resources)
  {
    NothingMissingExactly(CheckWorldOf(selector, p), resources);
  }

  /** The same in terms of the world: what has to be there and what has to go well for a proxy to be declared ready. */
  lemma ReadyInFull(disk: Disk, k: Key, p: Proxy, w: World)
    requires p.spec.git.Some?
    ensures var git, selector := p.spec.git.value, p.spec.selector;
            var resources := ResourcesOf(disk, k, git, w);
            FinalRun(disk, k, p, w).ready <==>
              && Fetchable(k, git, w)
              && SynthesisIn(Found(disk, k, git, w)) == Synthesizer.Parsed(resources)
              && AppliesThrough(Selection.Picked(selector, w.apply.clusters), w.apply, resources)
              && FindsAll(Selection.Picked(selector, w.check.clusters), w.check, resources)
  {
    var selector, resources := p.spec.selector, ResourcesOf(disk, k, p.spec.git.value, w);
    ReadyExactly(disk, k, p, w);
    FetchableExactly(k, p.spec.git.value, w);
    AppliesThroughExactly(selector, w.apply, resources);
    FindsAllExactly(selector, w.check, resources);
  }

  /**
   * Unless others meddle with its clone or make one in it, a ready run whose path stays in its clone applies what the
   * proxy's repository and branch synthesize to at the proxy's path.
   */
  lemma UnspoiledRunIsOwn(disk: Disk, k: Key, p: Proxy, w: World)
    requires p.spec.git.Some? && FinalRun(disk, k, p, w).ready && Inside(JobOf(k, p))
    requires var cloned, place := DiskWithClone(disk, k, p.spec.git.value, w), PlaceOf(JobOf(k, p));
             && place in w.meddled(cloned) && w.meddled(cloned)[place] == cloned[place]
             && forall q | q in w.meddled(cloned) :: !(place < q)
    ensures var git := p.spec.git.value;
            Synthesizer.SynthesisOf(w.holds(git.url, git.reference)(Relative(JobOf(k, p))))
            == Synthesizer.Parsed(FinalRun(disk, k, p, w).resources)
  {
    ReadyExactly(disk, k, p, w);
    OwnPlace(w.meddled(DiskWithClone(disk, k, p.spec.git.value, w)), PlaceOf(JobOf(k, p)), SpotOf(JobOf(k, p)));
  }

  /**
   * A reconciliation panics exactly on a nil repository, or if applying or checking gets to a cluster without a client
   * with a resource in hand. Otherwise it fails exactly if the read or the clean-up does.
   */
  lemma PanicsExactly(disk: Disk, k: Key, found: Option<Proxy>, w: World)
    ensures OutcomeOf(disk, k, found, w) == Panicked <==>
              found.Some? && (found.value.spec.git.None? || ReachesNilClient(disk, k, found.value, w))
    ensures OutcomeOf(disk, k, found, w) == Panicked || OutcomeOf(disk, k, found, w)
         == Returned(found.None? || !w.removed)
  {
    if Dereferenced(found) {
      var p := found.value;
      var run, selector, resources := PreparedRun(disk, k, p, w), p.spec.selector, ResourcesOf(disk, k,
          p.spec.git.value, w);
      FinalRunIs(disk, k, p, w);
      PreparedRunIs(disk, k, p, w);
      ApplyPanicsExactly(ApplyWorldOf(selector, w.apply), resources);
      CheckPanicsExactly(CheckWorldOf(selector, w.check), resources);
      if run.stage != Stopped {
        CarriedPanics(run, ApplyResultOf(selector, w, resources), CheckResultOf(selector, w, resources));
      }
    }
  }

  lemma CarriedPanics(r: Run, apply: Result, check: Result)
    requires r.read.spec.git.Some? && r.stage == Applying && !r.panicked
    ensures Carried(r, apply, check).panicked <==> apply.Panic? || (apply.Ok? && check.Panic?)
  {
  }

  ghost predicate ReachesNilClient(disk: Disk, k: Key, p: Proxy, w: World)
    requires p.spec.git.Some?
  {
    var resources := ResourcesOf(disk, k, p.spec.git.value, w);
    var apply := Selection.Picked(p.spec.selector, w.apply.clusters);
    var check := Selection.Picked(p.spec.selector, w.check.clusters);
    && Prepared(disk, k, p, w) && resources != [] && apply.Some?
    && (|| (exists m: nat :: ReachesNil(w.apply.config, |apply.value|, m))
        || (&& check.Some?
            && exists m: nat :: ReachesNil(w.check.config, |check.value|, m) &&
                NothingBreaks(CheckWorldOf(p.spec.selector, w.check), resources, 0, m)))
  }

  /**
   * Failures leave no trace: a run that does not get to its write leaves the server alone, and what one that does
   * stores are the conditions it read, with at most Ready turned to true, on a proxy of the version it read.
   */
  lemma FailuresAreNeverStored(s: Server, disk: Disk, k: Key, p: Proxy, w: World)
    requires p.spec.git.Some?
    ensures var run, before := FinalRun(disk, k, p, w), ServeAll(s, w.foreign);
            var after := Written(s, run, w);
            && (run.stage != Writing ==> after == s)
            && var current := k in before.proxies && before.proxies[k].version == p.version;
            && (run.stage == Writing && (w.send.NotSent? || !current) ==> after == before)
            && (run.stage == Writing && !w.send.NotSent? && current ==>
                  && k in after.proxies
                  && after.proxies[k].conditions ==
                       (if run.ready
                        then p.conditions["Ready" := Condition(true, "Successful", "Cdk8sAppProxy is ready")]
                        else p.conditions)
                  && after.proxies[k] == before.proxies[k].(version := after.proxies[k].version,
                      conditions := after.proxies[k].conditions)
                  && after.generators == before.generators && after.proxies - {k} == before.proxies - {k})
  {
    FinalRunKeeps(disk, k, p, w);
  }

  /**
   * Reconciling a proxy that is ready already, up to date and undisturbed, changes nothing on the server, however it
   * goes.
   */
  lemma ReadyIsAFixedPoint(s: Server, disk: Disk, k: Key, w: World)
    requires k in s.proxies && s.proxies[k].spec.git.Some? && w.foreign == []
    requires READY in s.proxies[k].conditions && s.proxies[k].conditions[READY] == IS_READY
    ensures Written(s, FinalRun(disk, k, s.proxies[k], w), w) == s
  {
    var p := s.proxies[k];
    FinalRunKeeps(disk, k, p, w);
    assert p.conditions[READY := IS_READY] == p.conditions;
  }
}
