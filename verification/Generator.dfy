/**
 * The generator controller. `GeneratorReconciler.ReconcilePR` writes through the label map and the GitRepository
 * object that every rendered proxy shares with the generator's template, and the client reads each server reply
 * back into them; all of it is proved to do what Render says of the untouched template.
 */
module GeneratorController {
  import opened Wrappers
  import opened Text
  import opened Api
  import opened ApiServer
  import opened Render
  import opened Objects
  import opened Drift
  import opened Clock
  import opened Schedule
  import opened Access
  import opened Provider

  class Client {
    var server: Server

    /** A fetched object is private to the caller; null stands for "not found". */
    method Get(k: Key, read: Read) returns (found: ProxyStruct?, err: bool)
      ensures err <==> read.ReadFails?
      ensures !err ==> (found == null <==> Viewed(server, k, read).None?)
      ensures err ==> found == null
      ensures found != null ==>
                found.key == k && found.Wire() == Viewed(server, k, read).value && fresh(found) && fresh(found.spec)
    {
      found, err := null, read.ReadFails?;
      if !err {
        var view := Viewed(server, k, read);
        if view.Some? {
          found := new ProxyStruct.Decoded(k, view.value);
        }
      }
    }

    /** A create or update: the reply, if one is read, lands in the object that was sent and in all it shares. */
    method Send(create: bool, proxy: ProxyStruct, env: Env) returns (err: bool)
      requires proxy.Valid() && proxy.spec.git != null
      modifies this, proxy, proxy.labels, proxy.annotations, proxy.spec, proxy.spec.git
      ensures proxy.labels == old(proxy.labels) && proxy.annotations == old(proxy.annotations) &&
                proxy.spec.git == old(proxy.spec.git)
      ensures var r := if create then Create(proxy.key, old(proxy.Wire())) else Update(proxy.key, old(proxy.Wire()));
              var (s', reply) := Transmit(old(server), r, env);
              && server == s'
              && err == reply.None?
              && proxy.spec.git.Value() == (if err then old(proxy.spec.git.Value())
                                            else Overwritten(old(proxy.spec.git.Value()), reply.value.spec.git.value))
      ensures proxy.labels != null ==> proxy.labels.entries == old(proxy.labels.entries)
      ensures proxy.annotations != null ==> proxy.annotations.entries == old(proxy.annotations.entries)
    {
      var r := if create then Create(proxy.key, proxy.Wire()) else Update(proxy.key, proxy.Wire());
      var (s', reply) := Transmit(server, r, env);
      server := s';
      err := reply.None?;
      if reply.Some? {
        proxy.ReadReply(reply.value);
      }
    }

    /** Create what a read did not find, else overwrite spec, labels and annotations of what it found. */
    method CreateOrUpdate(proxy: ProxyStruct, env: Env) returns (err: bool)
      requires proxy.Valid() && proxy.spec.git != null
      modifies this, proxy, proxy.labels, proxy.annotations, proxy.spec, proxy.spec.git
      ensures var (s', reply) := Submitted(old(server), proxy.key, old(proxy.Wire()), env);
              && server == s'
              && err == reply.None?
              && old(proxy.spec.git).Value() == (if err then old(proxy.spec.git.Value())
                                                 else Overwritten(old(proxy.spec.git.Value()),
                                                     reply.value.spec.git.value))
      ensures old(proxy.labels) != null ==> old(proxy.labels).entries == old(proxy.labels.entries)
      ensures old(proxy.annotations) != null ==> old(proxy.annotations).entries == old(proxy.annotations.entries)
    {
      var existing, failed := Get(proxy.key, env.read);
      if failed {
        return true;
      }
      if existing == null {
        err := Send(true, proxy, env);
      } else {
        existing.spec.git, existing.spec.selector := proxy.spec.git, proxy.spec.selector;
        existing.labels, existing.annotations := proxy.labels, proxy.annotations;
        err := Send(false, existing, env);
      }
    }
  }

  const RETRY_STEPS: nat := 5

  /** What the world does during one attempt to write the time of the poll. */
  datatype Attempt = Attempt(read: GeneratorRead, foreign: seq<Request>, now: int, send: Send)

  datatype GeneratorRead = Failed | Latest | Sees(view: Option<Generator>)

  datatype StampOutcome = Landed | Conflicted | Errored

  function ViewedGenerator(s: Server, k: Key, read: GeneratorRead): Option<Generator> {
    match read case Failed => None case Latest => Lookup(s.generators, k) case Sees(view) => view
  }

  /** Read, set the time, write the status: other clients may write in between. */
  function StampOnce(s: Server, k: Key, a: Attempt): (Server, StampOutcome) {
    var view := ViewedGenerator(s, k, a.read);
    if view.None? then (s, Errored)
    else
      var s1 := ServeAll(s, a.foreign);
      if a.send.NotSent? then (s1, Errored)
      else
        var (s2, reply) := UpdateGeneratorStatus(s1, k, view.value.(lastPolled := Some(a.now)));
        (s2, if a.send.ReplyLost? then Errored
             else match reply case Accepted(_) => Landed case Conflict => Conflicted case _ => Errored)
  }

  function StampFrom(s: Server, k: Key, attempts: nat -> Attempt, i: nat): (Server, bool)
    decreases RETRY_STEPS - i
  {
    if i >= RETRY_STEPS then (s, true)
    else
      var (s', outcome) := StampOnce(s, k, attempts(i));
      match outcome
      case Landed => (s', false)
      case Errored => (s', true)
      case Conflicted => StampFrom(s', k, attempts, i + 1)
  }

  /** The server when the j-th attempt reads, if those before it changed nothing. */
  function ServerAt(s: Server, attempts: nat -> Attempt, i: nat, j: nat): Server
    requires i <= j
    decreases j
  {
    if j == i then s else ServeAll(ServerAt(s, attempts, i, j - 1), attempts(j - 1).foreign)
  }

  /** What an attempt reads: nothing, what is stored, or any state from a cache. */
  ghost predicate Reads(s: Server, k: Key, a: Attempt, view: Generator) {
    if a.read == Latest then k in s.generators && view == s.generators[k] else a.read == Sees(Some(view))
  }

  /** An attempt that finds its generator, whose write arrives and is answered. */
  ghost predicate Answered(s: Server, k: Key, a: Attempt) {
    && (exists view :: Reads(s, k, a, view))
    && a.send == Delivered && k in ServeAll(s, a.foreign).generators
  }

  /** Somebody wrote the generator after the state that the attempt read. */
  ghost predicate Overtaken(s: Server, k: Key, a: Attempt) {
    && Answered(s, k, a)
    && forall view | Reads(s, k, a, view) :: view.version != ServeAll(s, a.foreign).generators[k].version
  }

  /** What the attempt read is still what is stored when it writes. */
  ghost predicate UpToDate(s: Server, k: Key, a: Attempt) {
    && Answered(s, k, a)
    && forall view | Reads(s, k, a, view) :: view.version == ServeAll(s, a.foreign).generators[k].version
  }

  /** The j-th attempt is up to date, and all before it, from the i-th on, are overtaken. */
  ghost predicate GetsThrough(s: Server, k: Key, attempts: nat -> Attempt, i: nat, j: nat)
    requires i <= j
  {
    && UpToDate(ServerAt(s, attempts, i, j), k, attempts(j))
    && forall l: nat | i <= l < j :: Overtaken(ServerAt(s, attempts, i, l), k, attempts(l))
  }

  lemma ReadsView(s: Server, k: Key, a: Attempt, view: Generator)
    ensures Reads(s, k, a, view) <==> ViewedGenerator(s, k, a.read) == Some(view)
  {
  }

  lemma OneAttempt(s: Server, k: Key, a: Attempt)
    ensures UpToDate(s, k, a) <==> StampOnce(s, k, a).1 == Landed
    ensures Overtaken(s, k, a) <==> StampOnce(s, k, a).1 == Conflicted
    ensures Overtaken(s, k, a) ==> StampOnce(s, k, a).0 == ServeAll(s, a.foreign)
  {
    var read := ViewedGenerator(s, k, a.read);
    if read.Some? {
      ReadsView(s, k, a, read.value);
      forall view | Reads(s, k, a, view)
        ensures view == read.value
      {
        ReadsView(s, k, a, view);
      }
    } else {
      forall view
        ensures !Reads(s, k, a, view)
      {
        ReadsView(s, k, a, view);
      }
    }
  }

  lemma {:induction false} ServerAtShifts(s: Server, attempts: nat -> Attempt, i: nat, j: nat)
    requires i < j
    ensures ServerAt(s, attempts, i, j) == ServerAt(ServeAll(s, attempts(i).foreign), attempts, i + 1, j)
    decreases j
  {
    if j > i + 1 {
      ServerAtShifts(s, attempts, i, j - 1);
    }
  }

  lemma LaterGetsThrough(s: Server, k: Key, attempts: nat -> Attempt, i: nat, j: nat)
    requires i < j
    ensures GetsThrough(s, k, attempts, i, j) <==>
              && Overtaken(s, k, attempts(i))
              && GetsThrough(ServeAll(s, attempts(i).foreign), k, attempts, i + 1, j)
  {
    forall l: nat | i < l <= j
      ensures ServerAt(s, attempts, i, l) == ServerAt(ServeAll(s, attempts(i).foreign), attempts, i + 1, l)
    {
      ServerAtShifts(s, attempts, i, l);
    }
  }

  lemma RetryStep(s: Server, k: Key, attempts: nat -> Attempt, i: nat)
    requires i < 5
    ensures !StampFrom(s, k, attempts, i).1 <==>
              || UpToDate(s, k, attempts(i))
              || (&& Overtaken(s, k, attempts(i))
                  && !StampFrom(ServeAll(s, attempts(i).foreign), k, attempts, i + 1).1)
  {
    OneAttempt(s, k, attempts(i));
  }

  /** One of the five attempts, from the i-th on, gets through. */
  ghost predicate SomeGetsThrough(s: Server, k: Key, attempts: nat -> Attempt, i: nat) {
    exists j: nat :: i <= j < 5 && GetsThrough(s, k, attempts, i, j)
  }

  lemma SomeGetsThroughStep(s: Server, k: Key, attempts: nat -> Attempt, i: nat)
    requires i < 5
    ensures SomeGetsThrough(s, k, attempts, i) <==>
              || UpToDate(s, k, attempts(i))
              || (&& Overtaken(s, k, attempts(i))
                  && SomeGetsThrough(ServeAll(s, attempts(i).foreign), k, attempts, i + 1))
  {
    assert GetsThrough(s, k, attempts, i, i) <==> UpToDate(s, k, attempts(i));
    if j: nat :| i <= j < 5 && GetsThrough(s, k, attempts, i, j) {
      if j > i {
        LaterGetsThrough(s, k, attempts, i, j);
      }
    }
    var s', next := ServeAll(s, attempts(i).foreign), i + 1;
    if j: nat :| next <= j < 5 && GetsThrough(s', k, attempts, next, j) {
      LaterGetsThrough(s, k, attempts, i, j);
    }
  }

  /** The retry reports no error exactly if one of its attempts is up to date and those before it are overtaken. */
  lemma {:induction false} RetrySucceedsExactly(s: Server, k: Key, attempts: nat -> Attempt, i: nat)
    requires i <= 5
    ensures !StampFrom(s, k, attempts, i).1 <==> SomeGetsThrough(s, k, attempts, i)
    decreases 5 - i
  {
    if i < 5 {
      RetryStep(s, k, attempts, i);
      SomeGetsThroughStep(s, k, attempts, i);
      RetrySucceedsExactly(ServeAll(s, attempts(i).foreign), k, attempts, i + 1);
    } else {
      assert StampFrom(s, k, attempts, i).1 && !SomeGetsThrough(s, k, attempts, i);
    }
  }

  /** What the world does during one reconciliation of a generator. */
  datatype World = World(now: int, until: int, secrets: Secrets, remote: Remote, listing: Option<seq<Work>>,
          attempts: nat -> Attempt)

  /** Everything between the gate and the loop goes well. */
  ghost predicate MayPoll(namespace: string, source: GitRepo, world: World) {
    var secret := FetchSecret(world.secrets, namespace, source);
    && secret.Some?
    && (world.remote.anonymous || (AuthFor(source.url, secret.value, world.remote).Some? && world.remote.authenticated))
    && RequestBuilt(source.url)
    && world.listing.Some?
  }

  /** What a poll needs: its secret, access with it or without, a URL whose host it can ask, and an answer. */
  lemma MayPollExactly(namespace: string, source: GitRepo, world: World)
    ensures MayPoll(namespace, source, world) <==>
              && source.secretRef != "" && HasEntry(world.secrets, namespace, source.secretRef, source.secretKey)
              && (world.remote.anonymous
                  || (world.remote.authenticated &&
                      AuthFor(source.url, world.secrets.data[Key(namespace, source.secretRef)][source.secretKey],
                          world.remote).Some?))
              && ListingFor(source.url).Some? && world.listing.Some?
  {
  }

  /** Secret, access and provider first; each failure stops before any pull request is looked at. */
  method ListOpenPullRequests(namespace: string, source: GitRepo, world: World) returns (listed: Option<seq<Work>>)
    ensures listed == if MayPoll(namespace, source, world) then world.listing else None
  {
    var secret := FetchSecret(world.secrets, namespace, source);
    if secret.None? {
      return None;
    }
    var accessible, requiresAuth, failed, _ := CheckAccess(source.url, secret.value, world.remote);
    if failed {
      return None;
    }
    assert accessible && (requiresAuth ==> secret.value != "");
    var provider := NewProviderClient(source.url);
    var request := ListPullRequests(provider, source.url, secret.value);
    listed := if request.None? then None else world.listing;
  }

  /** The meaning of a reconciliation: the store it leaves, the delay it asks for and whether it fails. */
  ghost function Reconciled(s: Server, g: Source, last: Option<int>, world: World): (Server, int, bool) {
    var interval := Interval(g.spec.pollInterval);
    if !GateOpen(last, interval, world.now) then (s, last.value + interval - world.until, false)
    else if !MayPoll(g.key.namespace, g.spec.source, world) then (s, 0, true)
    else
      var (s', err) := StampFrom(Poll(s, g, world.listing.value), g.key, world.attempts, 0);
      (s', if err then 0 else interval, err)
  }

  /**
   * When a reconciliation succeeds and when it asks to come back. Before the next poll time it leaves everything alone
   * and asks for what remains; otherwise it succeeds exactly if it may poll and one of five attempts gets its time
   * through, and then it asks for the interval of the spec, or for five minutes if there is none.
   */
  lemma ReconciledExactly(s: Server, g: Source, last: Option<int>, world: World)
    ensures var interval := match g.spec.pollInterval case None => 300_000_000_000 case Some(configured) => configured;
            var (s', requeue, err) := Reconciled(s, g, last, world);
            if last.Some? && world.now < last.value + interval
            then s' == s && !err && requeue == last.value + interval - world.until
            else
              && (!err <==>
                    && MayPoll(g.key.namespace, g.spec.source, world)
                    && SomeGetsThrough(Poll(s, g, world.listing.value), g.key, world.attempts, 0))
              && requeue == (if err then 0 else interval)
              && (!MayPoll(g.key.namespace, g.spec.source, world) ==> s' == s)
  {
    if world.listing.Some? {
      RetrySucceedsExactly(Poll(s, g, world.listing.value), g.key, world.attempts, 0);
    }
  }

  /** Matching a pull request against the filters stops at the first hit. */
  method MatchesFilters(filters: array?<string>, pr: PullRequest) returns (matches: bool)
    ensures matches == Accepts(if filters == null then [] else filters[..], pr)
  {
    if filters == null || filters.Length == 0 {
      return true;
    }
    for i := 0 to filters.Length
      invariant forall j | 0 <= j < i :: filters[j] != "" && filters[j] != pr.baseBranch
    {
      if filters[i] == "" || filters[i] == pr.baseBranch {
        assert filters[..][i] == filters[i];
        return true;
      }
    }
    return false;
  }

  /** The two labels go into the template's own map if it has one. */
  method RenderLabels(shared: StringMap?, name: string, number: int) returns (labels: StringMap)
    modifies shared
    ensures labels.entries == old(OrEmpty(MapValue(shared)))[GENERATOR_LABEL := name][NUMBER_LABEL := Decimal(number)]
    ensures if shared == null then fresh(labels) else labels == shared
  {
    if shared == null {
      labels := new StringMap(map[]);
    } else {
      labels := shared;
    }
    labels.entries := labels.entries[GENERATOR_LABEL := name];
    labels.entries := labels.entries[NUMBER_LABEL := Decimal(number)];
  }

  /** The pull request's specifics go into the template's own GitRepository if it has one. */
  method RenderGit(shared: GitRepository?, source: GitRepo, path: string, branch: string) returns (git: GitRepository)
    modifies shared
    ensures if shared == null then fresh(git) else git == shared
    ensures var base := old(if shared == null then OrBlank(None) else shared.Value());
            git.Value() == base.(url := source.url, reference := branch, secretRef := source.secretRef,
                secretKey := source.secretKey,
                                 path := if path != "" then path else if source.path != "" then source.path
                                     else base.path)
  {
    if shared == null {
      git := new GitRepository(GitRepo("", "", "", "", "", ""));
    } else {
      git := shared;
    }
    git.url := source.url;
    git.reference := branch;
    git.secretRef := source.secretRef;
    git.secretKey := source.secretKey;
    if source.path != "" {
      git.path := source.path;
    }
    if path != "" {
      git.path := path;
    }
  }

  /**
   * A proxy and a template with the same annotations, and the template's label map and GitRepository if it has them.
   */
  predicate Shares(proxy: ProxyStruct, template: TemplateStruct)
    reads proxy, proxy.spec, template, template.spec
  {
    && proxy.Valid() && proxy.labels != null && proxy.spec.git != null
    && proxy.annotations == template.annotations
    && (template.labels != null ==> proxy.labels == template.labels)
    && (template.spec.git != null ==> proxy.spec.git == template.spec.git)
  }

  class GeneratorReconciler {
    const client: Client

    constructor (client: Client)
      ensures this.client == client
    {
      this.client := client;
    }

    /** The proxy for a pull request, built from objects it shares with the template; null if no owner can be set. */
    method RenderProxy(key: Key, gen: GeneratorSpecStruct, pr: PullRequest, ownerSet: bool)
      returns (proxy: ProxyStruct?)
      requires gen.template.Valid()
      modifies gen.template.labels, gen.template.spec.git
      ensures gen.template.Valid()
      ensures proxy == null <==> !ownerSet
      ensures proxy == null ==> gen.Value() == LabelsWritten(Source(key, old(gen.Value())), pr)
      ensures proxy != null ==>
                && gen.Value() == Written(Source(key, old(gen.Value())), pr)
                && proxy.Wire() == Rendered(Source(key, old(gen.Value())), pr)
                && proxy.key == ProxyKey(Source(key, old(gen.Value())), pr)
                && fresh(proxy) && fresh(proxy.spec)
                && Shares(proxy, gen.template)
                && (gen.template.labels == null ==> fresh(proxy.labels))
                && (gen.template.spec.git == null ==> fresh(proxy.spec.git))
    {
      var template := gen.template;
      var labels := RenderLabels(template.labels, key.name, pr.number);
      if !ownerSet {
        return null;
      }
      var git := RenderGit(template.spec.git, gen.source, gen.path, pr.branch);
      proxy := new ProxyStruct(Key(key.namespace, ProxyName(key.name, pr.number)), labels, template.annotations);
      proxy.owner := Some(key.name);
      proxy.spec.git, proxy.spec.selector := git, template.spec.selector;
    }

    /** Submits a rendered proxy: the reply is read back into whatever it shares with the template. */
    method SubmitShared(gen: GeneratorSpecStruct, proxy: ProxyStruct, env: Env) returns (err: bool)
      requires gen.template.Valid() && Shares(proxy, gen.template) && proxy.spec != gen.template.spec
      modifies client, proxy, proxy.spec, proxy.labels, proxy.annotations, proxy.spec.git
      ensures gen.template.Valid()
      ensures var (s', reply) := Submitted(old(client.server), proxy.key, old(proxy.Wire()), env);
              && client.server == s'
              && err == reply.None?
              && gen.Value() == ReadBack(old(gen.Value()), reply)
    {
      ghost var template, value := gen.template, gen.Value();
      ReplyIsMutated(client.server, proxy.key, proxy.Wire(), env);
      err := client.CreateOrUpdate(proxy, env);
      assert MapValue(template.labels) == value.template.labels;
      assert MapValue(template.annotations) == value.template.annotations;
    }

    /** Handles one pull request: its effect on the server, and on the shared objects it writes through. */
    method ReconcilePR(key: Key, gen: GeneratorSpecStruct, w: Work) returns (err: bool)
      requires gen.template.Valid()
      modifies client, gen.template.labels, gen.template.annotations, gen.template.spec.git
      ensures gen.template.Valid()
      ensures (client.server, err) == Render.ReconcilePR(old(client.server), Source(key, old(gen.Value())), w)
      ensures gen.Value() == Drifted(old(client.server), Source(key, old(gen.Value())), w)
    {
      var matches := MatchesFilters(gen.filters, w.pr);
      if !matches {
        return false;
      }
      var proxy := RenderProxy(key, gen, w.pr, w.env.ownerSet);
      if proxy == null {
        return true;
      }
      err := SubmitShared(gen, proxy, w.env);
    }

    /** The poll's loop over shared objects stores what the pure poll of the untouched spec stores. */
    method ReconcileAll(key: Key, gen: GeneratorSpecStruct, works: seq<Work>)
      requires gen.template.Valid()
      modifies client, gen.template.labels, gen.template.annotations, gen.template.spec.git
      ensures client.server == Poll(old(client.server), Source(key, old(gen.Value())), works)
    {
      ghost var pristine := gen.Value();
      ghost var src := Source(key, pristine);
      for i := 0 to |works|
        invariant gen.template.Valid() && Tracks(client.server.mutating, gen.Value(), pristine)
        invariant Poll(client.server, src, works[i..]) == Poll(old(client.server), src, works)
      {
        DriftIsHarmless(client.server, key, gen.Value(), pristine, works[i]);
        assert works[i..][0] == works[i] && works[i..][1..] == works[i + 1..];
        var err := ReconcilePR(key, gen, works[i]);
      }
    }

    /** RetryOnConflict around a fresh read, one assignment and a status write: at most RETRY_STEPS attempts. */
    method UpdateLastPolled(key: Key, attempts: nat -> Attempt) returns (err: bool)
      modifies client
      ensures (client.server, err) == StampFrom(old(client.server), key, attempts, 0)
      ensures !err <==> SomeGetsThrough(old(client.server), key, attempts, 0)
    {
      RetrySucceedsExactly(client.server, key, attempts, 0);
      for i := 0 to RETRY_STEPS
        invariant StampFrom(client.server, key, attempts, i) == StampFrom(old(client.server), key, attempts, 0)
      {
        var (s, outcome) := StampOnce(client.server, key, attempts(i));
        client.server := s;
        if !outcome.Conflicted? {
          return outcome.Errored?;
        }
      }
      err := true;
    }

    /** The gate, the pull requests and the stamp, on a generator object of our own. */
    method ReconcileOwn(key: Key, gen: GeneratorSpecStruct, last: Option<int>, world: World)
      returns (requeue: int, err: bool)
      requires gen.template.Valid()
      modifies client, gen.template.labels, gen.template.annotations, gen.template.spec.git
      ensures (client.server, requeue, err) ==
                Reconciled(old(client.server), Source(key, old(gen.Value())), last, world)
    {
      ghost var src, before := Source(key, gen.Value()), client.server;
      var pollInterval := DEFAULT_POLL_INTERVAL;
      if gen.pollInterval != null {
        pollInterval := gen.pollInterval.nanoseconds;
      }
      if last.Some? {
        var nextPoll := last.value + pollInterval;
        if world.now < nextPoll {
          return nextPoll - world.until, false;
        }
      }
      var listed := ListOpenPullRequests(key.namespace, gen.source, world);
      if listed.None? {
        return 0, true;
      }
      ReconcileAll(key, gen, listed.value);
      assert client.server == Poll(before, src, world.listing.value);
      err := UpdateLastPolled(key, world.attempts);
      requeue := if err then 0 else pollInterval;
    }

    /**
     * One reconciliation. `cached` is the generator in the informer cache, null if the read fails, and stays untouched:
     * the poll works on a deep copy of it.
     */
    method Reconcile(key: Key, cached: GeneratorSpecStruct?, last: Option<int>, world: World)
      returns (requeue: int, err: bool)
      requires cached != null ==> cached.template.Valid()
      modifies client
      ensures (client.server, requeue, err) ==
                if cached == null then (old(client.server), 0, true)
                else Reconciled(old(client.server), Source(key, old(cached.Value())), last, world)
      ensures cached != null ==> cached.Value() == old(cached.Value())
    {
      if cached == null {
        return 0, true;
      }
      ghost var src := Source(key, cached.Value());
      var gen := cached.DeepCopy();
      assert Source(key, gen.Value()) == src;
      requeue, err := ReconcileOwn(key, gen, last, world);
    }
  }
}
