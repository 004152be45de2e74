/**
 * Both controllers and every other client over one server, in any interleaving, with reads that may return any state
 * an object ever had. The proxy controller's runs share one file system. A generator's poll is a sequence of External
 * steps (Render.PollIsRequests).
 */
module Interleaving {
  import opened Wrappers
  import opened Api
  import opened Admission
  import opened ApiServer
  import opened Clock
  import opened ProxyRun
  import opened Render
  import opened Workdir

  /** The time write of a generator's poll, between its read and its write. */
  datatype StampRun = StampRun(key: Key, read: Generator)

  /** `seen` and `seenGenerators` hold every state ever stored, `born` the URL each stored proxy was created with. */
  datatype System = System(server: Server, disk: Disk, seen: set<(Key, Proxy)>, seenGenerators: set<(Key, Generator)>,
                           born: map<Key, string>, runs: map<nat, Run>, stamps: map<nat, StampRun>)

  datatype Step =
    | External(request: Request)
    | Begin(id: nat, key: Key, read: Proxy)
    | Proceed(id: nat, result: Result)
    | WriteStatus(id: nat)
    | CleanUp(id: nat, removed: bool)
    | BeginStamp(id: nat, key: Key, seenAs: Generator)
    | WriteStamp(id: nat, now: int)

  function Init(mutating: bool): System {
    System(Server(mutating, 0, map[], map[]), map[], {}, {}, map[], map[], map[])
  }

  function UrlOf(p: Proxy): string {
    match p.spec.git case Some(git) => git.url case None => ""
  }

  /** The bookkeeping that goes with a change of the server. */
  function Moved(s: System, server: Server): System {
    s.(server := server,
       seen := s.seen + (set k | k in server.proxies :: (k, server.proxies[k])),
       seenGenerators := s.seenGenerators + (set k | k in server.generators :: (k, server.generators[k])),
       born := map k | k in server.proxies :: if k in s.server.proxies &&
           k in s.born then s.born[k] else UrlOf(server.proxies[k]))
  }

  function StatusWrite(s: System, id: nat): (Server, Reply<Proxy>)
    requires id in s.runs
  {
    var r := s.runs[id];
    UpdateProxyStatus(s.server, r.key, r.read.(conditions := r.conditions))
  }

  function StampWrite(s: System, id: nat, now: int): (Server, Reply<Generator>)
    requires id in s.stamps
  {
    var t := s.stamps[id];
    UpdateGeneratorStatus(s.server, t.key, t.read.(lastPolled := Some(now)))
  }

  /** A synthesis sees what lies where its path leads at that moment. */
  ghost predicate Honest(s: System, r: Run, o: Result)
    requires r.read.spec.git.Some?
  {
    o.Held? ==> Sees(s.disk, SpotOf(JobOf(r.key, r.read)), o.content)
  }

  /** The file system after a stage: a successful clone takes over its place. */
  function DiskAfter(disk: Disk, r: Run, o: Result): Disk
    requires r.read.spec.git.Some?
  {
    if r.stage == Cloning && o.Fetched? then WithClone(disk, PlaceOf(JobOf(r.key, r.read)), Advance(r,
        o).cloned.value) else disk
  }

  /** A step that is not enabled does nothing. */
  ghost function Next(s: System, step: Step): System {
    match step
    case External(request) => Moved(s, Serve(s.server, request))
    case Begin(id, k, p) =>
      if (k, p) in s.seen && p.spec.git.Some? && id !in s.runs then s.(runs := s.runs[id := Start(k, p)]) else s
    case Proceed(id, o) =>
      if id in s.runs && s.runs[id].read.spec.git.Some? && Honest(s, s.runs[id], o)
      then s.(runs := s.runs[id := Advance(s.runs[id], o)], disk := DiskAfter(s.disk, s.runs[id], o))
      else s
    case WriteStatus(id) =>
      if id in s.runs && s.runs[id].stage == Writing
      then Moved(s, StatusWrite(s, id).0).(runs := s.runs[id := s.runs[id].(stage := Stopped)])
      else s
    case CleanUp(id, removed) =>
      if id in s.runs && s.runs[id].stage == Stopped && s.runs[id].read.spec.git.Some?
      then s.(runs := s.runs - {id}, disk := if removed then Without(s.disk, PlaceOf(JobOf(s.runs[id].key,
          s.runs[id].read))) else s.disk)
      else s
    case BeginStamp(id, k, g) => if (k, g) in s.seenGenerators then s.(stamps := s.stamps[id := StampRun(k, g)]) else s
    case WriteStamp(id, now) =>
      if id in s.stamps then Moved(s, StampWrite(s, id, now).0).(stamps := s.stamps - {id}) else s
  }

  ghost function Exec(s: System, steps: seq<Step>): System
    decreases steps
  {
    if steps == [] then s else Exec(Next(s, steps[0]), steps[1..])
  }

  // ---------------------------------------------------------------- invariant

  ghost predicate ProxiesKnown(s: System) {
    && (forall k | k in s.server.proxies :: (k, s.server.proxies[k]) in s.seen)
    && (forall x | x in s.seen :: x.1.version <= s.server.clock)
    && (forall x, y | x in s.seen && y in s.seen && x.1.version == y.1.version :: x == y)
  }

  ghost predicate GeneratorsKnown(s: System) {
    && (forall k | k in s.server.generators :: (k, s.server.generators[k]) in s.seenGenerators)
    && (forall x | x in s.seenGenerators :: x.1.version <= s.server.clock)
    && (forall x, y | x in s.seenGenerators && y in s.seenGenerators && x.1.version == y.1.version :: x == y)
  }

  ghost predicate AllSound(s: System) {
    && (forall x | x in s.seen :: Sound(s.server.mutating, x.1.spec))
    && s.born.Keys == s.server.proxies.Keys
    && (forall k | k in s.server.proxies :: UrlOf(s.server.proxies[k]) == s.born[k])
  }

  ghost predicate RunsKnown(s: System) {
    && (forall id | id in s.runs :: (s.runs[id].key, s.runs[id].read) in s.seen && OnPlan(s.runs[id]))
    && (forall id | id in s.stamps :: (s.stamps[id].key, s.stamps[id].read) in s.seenGenerators)
  }

  ghost predicate Inv(s: System) {
    ProxiesKnown(s) && GeneratorsKnown(s) && AllSound(s) && RunsKnown(s)
  }

  /** What every request does to the server: at most one object changes, it gets a new version, and it stays sound. */
  ghost predicate OneChange(s: Server, s': Server) {
    && s'.mutating == s.mutating && s'.clock >= s.clock
    && (forall k | k in s'.proxies ::
          || (k in s.proxies && s'.proxies[k] == s.proxies[k])
          || (s'.clock == s.clock + 1 && s'.proxies[k].version == s'.clock
              && Sound(s.mutating, s'.proxies[k].spec)
              && (k in s.proxies ==> UrlOf(s'.proxies[k]) == UrlOf(s.proxies[k]))))
    && (forall j, k | j in s'.proxies && k in s'.proxies && s'.proxies[j].version == s'.clock == s.clock + 1
          && s'.proxies[k].version == s'.clock :: j == k)
    && (forall k | k in s'.generators ::
          || (k in s.generators && s'.generators[k] == s.generators[k])
          || (s'.clock == s.clock + 1 && s'.generators[k].version == s'.clock))
    && (forall j, k | j in s'.generators && k in s'.generators && s'.generators[j].version == s'.clock == s.clock + 1
          && s'.generators[k].version == s'.clock :: j == k)
  }

  ghost predicate ServerSane(s: Server) {
    && (forall k | k in s.proxies :: s.proxies[k].version <= s.clock && Sound(s.mutating, s.proxies[k].spec))
    && (forall k | k in s.generators :: s.generators[k].version <= s.clock)
  }

  lemma StoreIsOneChange(s: Server, k: Key, p: Proxy)
    requires ServerSane(s) && Sound(s.mutating, p.spec) && (k in s.proxies ==> UrlOf(p) == UrlOf(s.proxies[k]))
    ensures OneChange(s, StoreProxy(s, k, p))
  {
  }

  lemma StoreGeneratorIsOneChange(s: Server, k: Key, g: Generator)
    requires ServerSane(s)
    ensures OneChange(s, StoreGenerator(s, k, g))
  {
  }

  lemma ServeIsOneChange(s: Server, r: Request)
    requires ServerSane(s)
    ensures OneChange(s, Serve(s, r))
  {
    match r
    case Create(k, p) =>
      CreateVerdict(s.mutating, p.spec);
      if k !in s.proxies && AdmitCreate(s.mutating, p.spec).Admitted? {
        StoreIsOneChange(s, k, p.(spec := AdmitCreate(s.mutating, p.spec).spec, conditions := map[]));
      }
    case Update(k, p) =>
      if k in s.proxies {
        UpdateVerdict(s.mutating, s.proxies[k].spec, p.spec);
        var verdict := AdmitUpdate(s.mutating, s.proxies[k].spec, p.spec);
        if p.version == s.proxies[k].version && verdict.Admitted? {
          StoreIsOneChange(s, k, p.(spec := verdict.spec, conditions := s.proxies[k].conditions));
        }
      }
    case UpdateStatus(k, p) =>
      StatusIsOneChange(s, k, p);
    case Delete(k) =>
    case NewGenerator(k, g) =>
      StoreGeneratorIsOneChange(s, k, g.(lastPolled := None, conditions := map[]));
    case ChangeGenerator(k, g) =>
      if k in s.generators {
        StoreGeneratorIsOneChange(s, k, s.generators[k].(spec := g.spec));
      }
    case ChangeGeneratorStatus(k, g) =>
      GeneratorStatusIsOneChange(s, k, g);
    case DeleteGenerator(k) =>
  }

  lemma StatusIsOneChange(s: Server, k: Key, p: Proxy)
    requires ServerSane(s)
    ensures OneChange(s, UpdateProxyStatus(s, k, p).0)
  {
    if k in s.proxies && p.version == s.proxies[k].version {
      StoreIsOneChange(s, k, s.proxies[k].(conditions := p.conditions));
    }
  }

  lemma GeneratorStatusIsOneChange(s: Server, k: Key, g: Generator)
    requires ServerSane(s)
    ensures OneChange(s, UpdateGeneratorStatus(s, k, g).0)
  {
    if k in s.generators && g.version == s.generators[k].version {
      StoreGeneratorIsOneChange(s, k, s.generators[k].(lastPolled := Stored(g.lastPolled), conditions := g.conditions));
    }
  }

  lemma InvIsSane(s: System)
    requires Inv(s)
    ensures ServerSane(s.server)
  {
    forall k | k in s.server.proxies
      ensures s.server.proxies[k].version <= s.server.clock && Sound(s.server.mutating, s.server.proxies[k].spec)
    {
      assert (k, s.server.proxies[k]) in s.seen;
    }
    forall k | k in s.server.generators
      ensures s.server.generators[k].version <= s.server.clock
    {
      assert (k, s.server.generators[k]) in s.seenGenerators;
    }
  }

  lemma NewlySeen(s: System, server: Server, x: (Key, Proxy))
    requires Inv(s) && OneChange(s.server, server) && x in Moved(s, server).seen
    ensures x.1.version <= server.clock && Sound(server.mutating, x.1.spec)
    ensures x !in s.seen ==>
              server.clock == s.server.clock + 1 && x.1.version == server.clock && x.0 in server.proxies &&
                  x.1 == server.proxies[x.0]
  {
    assert x.0 in s.server.proxies ==> (x.0, s.server.proxies[x.0]) in s.seen;
    if x !in s.seen {
      assert x.0 in server.proxies && x.1 == server.proxies[x.0];
    }
  }

  lemma MovedKeepsProxies(s: System, server: Server)
    requires Inv(s) && OneChange(s.server, server)
    ensures ProxiesKnown(Moved(s, server))
  {
    var s' := Moved(s, server);
    forall x | x in s'.seen
      ensures x.1.version <= server.clock
    {
      NewlySeen(s, server, x);
    }
    forall x, y | x in s'.seen && y in s'.seen && x.1.version == y.1.version
      ensures x == y
    {
      NewlySeen(s, server, x);
      NewlySeen(s, server, y);
    }
  }

  lemma MovedKeepsSound(s: System, server: Server)
    requires Inv(s) && OneChange(s.server, server)
    ensures AllSound(Moved(s, server))
  {
    var s' := Moved(s, server);
    forall x | x in s'.seen
      ensures Sound(server.mutating, x.1.spec)
    {
      NewlySeen(s, server, x);
    }
    forall k | k in server.proxies
      ensures UrlOf(server.proxies[k]) == s'.born[k]
    {
      assert k in s.server.proxies ==> UrlOf(server.proxies[k]) == UrlOf(s.server.proxies[k]);
    }
  }

  lemma MovedKeepsGenerators(s: System, server: Server)
    requires Inv(s) && OneChange(s.server, server)
    ensures GeneratorsKnown(Moved(s, server))
  {
    var s' := Moved(s, server);
    forall x | x in s'.seenGenerators
      ensures x.1.version <= server.clock
      ensures x !in s.seenGenerators ==>
                server.clock == s.server.clock + 1 && x.1.version == server.clock && x.0 in server.generators &&
                    x.1 == server.generators[x.0]
    {
      assert x.0 in s.server.generators ==> (x.0, s.server.generators[x.0]) in s.seenGenerators;
      if x !in s.seenGenerators {
        assert x.0 in server.generators && x.1 == server.generators[x.0];
      }
    }
  }

  lemma MovedKeepsInv(s: System, server: Server)
    requires Inv(s) && OneChange(s.server, server)
    ensures Inv(Moved(s, server))
  {
    MovedKeepsProxies(s, server);
    MovedKeepsSound(s, server);
    MovedKeepsGenerators(s, server);
  }

  lemma NextKeepsInv(s: System, step: Step)
    requires Inv(s)
    ensures Inv(Next(s, step))
  {
    match step
    case External(request) =>
      ExternalKeepsInv(s, request);
    case Begin(id, k, p) =>
      BeginKeepsInv(s, id, k, p);
    case Proceed(id, o) =>
      ProceedKeepsInv(s, id, o);
    case WriteStatus(id) =>
      WriteStatusKeepsInv(s, id);
    case CleanUp(id, removed) =>
    case BeginStamp(id, k, g) =>
      BeginStampKeepsInv(s, id, k, g);
    case WriteStamp(id, now) =>
      WriteStampKeepsInv(s, id, now);
  }

  lemma ExternalKeepsInv(s: System, request: Request)
    requires Inv(s)
    ensures Inv(Next(s, External(request)))
  {
    InvIsSane(s);
    ServeIsOneChange(s.server, request);
    MovedKeepsInv(s, Serve(s.server, request));
  }

  lemma ProceedKeepsInv(s: System, id: nat, o: Result)
    requires Inv(s)
    ensures Inv(Next(s, Proceed(id, o)))
  {
    if id in s.runs && s.runs[id].read.spec.git.Some? && Honest(s, s.runs[id], o) {
      AdvanceStaysOnPlan(s.runs[id], o);
      RunKeepsInv(s, DiskAfter(s.disk, s.runs[id], o), id, Advance(s.runs[id], o));
    }
  }

  /** The file system and one run may change freely, as long as the run works on a known object and is on its plan. */
  lemma RunKeepsInv(s: System, disk: Disk, id: nat, r: Run)
    requires Inv(s) && (r.key, r.read) in s.seen && OnPlan(r)
    ensures Inv(s.(runs := s.runs[id := r], disk := disk))
  {
  }

  lemma BeginStampKeepsInv(s: System, id: nat, k: Key, g: Generator)
    requires Inv(s)
    ensures Inv(Next(s, BeginStamp(id, k, g)))
  {
  }

  lemma BeginKeepsInv(s: System, id: nat, k: Key, p: Proxy)
    requires Inv(s)
    ensures Inv(Next(s, Begin(id, k, p)))
  {
    var x := (k, p);
    if x in s.seen {
      assert Sound(s.server.mutating, x.1.spec);
      StartIsOnPlan(k, p);
      RunKeepsInv(s, s.disk, id, Start(k, p));
    }
  }

  lemma WriteStatusKeepsInv(s: System, id: nat)
    requires Inv(s)
    ensures Inv(Next(s, WriteStatus(id)))
  {
    if id in s.runs && s.runs[id].stage == Writing {
      InvIsSane(s);
      StatusIsOneChange(s.server, s.runs[id].key, s.runs[id].read.(conditions := s.runs[id].conditions));
      MovedKeepsInv(s, StatusWrite(s, id).0);
      RunKeepsInv(Moved(s, StatusWrite(s, id).0), s.disk, id, s.runs[id].(stage := Stopped));
    }
  }

  lemma WriteStampKeepsInv(s: System, id: nat, now: int)
    requires Inv(s)
    ensures Inv(Next(s, WriteStamp(id, now)))
  {
    if id in s.stamps {
      InvIsSane(s);
      GeneratorStatusIsOneChange(s.server, s.stamps[id].key, s.stamps[id].read.(lastPolled := Some(now)));
      MovedKeepsInv(s, StampWrite(s, id, now).0);
    }
  }

  lemma {:induction false} ReachableInv(s: System, steps: seq<Step>)
    requires Inv(s)
    ensures Inv(Exec(s, steps))
    decreases steps
  {
    if steps != [] {
      NextKeepsInv(s, steps[0]);
      ReachableInv(Next(s, steps[0]), steps[1..]);
    }
  }

  /** Every state the system can get into. */
  ghost predicate Reachable(s: System) {
    exists mutating, steps :: s == Exec(Init(mutating), steps)
  }

  lemma ReachableSatisfiesInv(s: System)
    requires Reachable(s)
    ensures Inv(s)
  {
    var mutating, steps :| s == Exec(Init(mutating), steps);
    ReachableInv(Init(mutating), steps);
  }

  // ------------------------------------------------------------------ results

  /**
   * When a run that found everything in place has its status write accepted, the spec stored at that instant is the
   * very spec it worked on, however stale its read was; the write leaves that spec and declares it ready. Whether
   * what it synthesized was its own clone is another matter (Isolation).
   */
  lemma AcceptedReadyMatchesSpec(s: System, id: nat)
    requires Reachable(s) && id in s.runs && s.runs[id].stage == Writing && s.runs[id].ready
    requires StatusWrite(s, id).1.Accepted?
    ensures var r, s' := s.runs[id], Next(s, WriteStatus(id));
            && r.key in s.server.proxies && r.read == s.server.proxies[r.key]
            && r.read.spec.git.Some? && r.acts == Plan(r)
            && r.key in s'.server.proxies && s'.server.proxies[r.key].spec == r.read.spec
            && READY in s'.server.proxies[r.key].conditions && s'.server.proxies[r.key].conditions[READY].holds
  {
    ReachableSatisfiesInv(s);
    var r := s.runs[id];
    assert (r.key, r.read) in s.seen && (r.key, s.server.proxies[r.key]) in s.seen;
    assert Plan(r)[..4] == Plan(r);
  }

  /** A spec change between a run's read and its write always costs it that write. */
  lemma ChangedSpecConflicts(s: System, id: nat)
    requires Reachable(s) && id in s.runs && s.runs[id].stage == Writing
    requires s.runs[id].key in s.server.proxies && s.server.proxies[s.runs[id].key] != s.runs[id].read
    ensures StatusWrite(s, id).1 == Conflict && Next(s, WriteStatus(id)).server == s.server
  {
    ReachableSatisfiesInv(s);
    var r := s.runs[id];
    assert (r.key, r.read) in s.seen && (r.key, s.server.proxies[r.key]) in s.seen;
  }

  /**
   * Every proxy ever stored names a repository the controller can dereference; its URL is the one it was created with.
   */
  lemma StoredProxiesSound(s: System, k: Key)
    requires Reachable(s) && k in s.server.proxies
    ensures Sound(s.server.mutating, s.server.proxies[k].spec)
    ensures k in s.born && s.server.proxies[k].spec.git.value.url == s.born[k]
  {
    ReachableSatisfiesInv(s);
    assert (k, s.server.proxies[k]) in s.seen;
  }

  /** ... and so does every object a run works on, stale or not. */
  lemma RunsDereferenceSafely(s: System, id: nat)
    requires Reachable(s) && id in s.runs
    ensures Sound(s.server.mutating, s.runs[id].read.spec)
  {
    ReachableSatisfiesInv(s);
    assert (s.runs[id].key, s.runs[id].read) in s.seen;
  }

  /** A stored proxy names a branch and a path. */
  predicate Complete(p: Proxy) {
    p.spec.git.Some? && p.spec.git.value.reference != "" && p.spec.git.value.path != ""
  }

  ghost predicate AlwaysComplete(mutating: bool) {
    forall steps, k | k in Exec(Init(mutating), steps).server.proxies :: Complete(Exec(Init(mutating),
        steps).server.proxies[k])
  }

  /** That every stored proxy names a branch and a path is guaranteed exactly by the mutating half of the webhook. */
  lemma CompletenessNeedsDefaulting(mutating: bool)
    ensures AlwaysComplete(mutating) <==> mutating
  {
    if mutating {
      forall steps, k | k in Exec(Init(mutating), steps).server.proxies
        ensures Complete(Exec(Init(mutating), steps).server.proxies[k])
      {
        StoredProxiesSound(Exec(Init(mutating), steps), k);
        ExecKeepsWebhook(Init(mutating), steps);
      }
    } else {
      var k, spec := Key("n", "p"), ProxySpec(Some(GitRepo("u", "", "", "", "", "")), Selector(map[], []));
      var step := External(Create(k, Proxy(0, map[], map[], None, spec, map[])));
      var s' := Next(Init(false), step);
      assert k in s'.server.proxies && s'.server.proxies[k].spec == spec;
      assert Exec(Init(false), [step]) == Exec(s', []) == s';
    }
  }

  lemma {:induction false} ExecKeepsWebhook(s: System, steps: seq<Step>)
    requires Inv(s)
    ensures Exec(s, steps).server.mutating == s.server.mutating
    decreases steps
  {
    if steps != [] {
      NextKeepsInv(s, steps[0]);
      NextIsOneChange(s, steps[0]);
      ExecKeepsWebhook(Next(s, steps[0]), steps[1..]);
    }
  }

  /** The proxy is there before and after every step. */
  ghost predicate StaysStored(s: System, steps: seq<Step>, k: Key)
    decreases steps
  {
    k in s.server.proxies && (steps != [] ==> StaysStored(Next(s, steps[0]), steps[1..], k))
  }

  /** The URL a proxy was created with stays with it for as long as it exists. */
  lemma {:induction false} UrlNeverChanges(s: System, steps: seq<Step>, k: Key)
    requires Inv(s) && StaysStored(s, steps, k)
    ensures k in Exec(s, steps).server.proxies && UrlOf(Exec(s, steps).server.proxies[k]) == UrlOf(s.server.proxies[k])
    decreases steps
  {
    if steps != [] {
      var s' := Next(s, steps[0]);
      NextKeepsInv(s, steps[0]);
      assert StaysStored(s', steps[1..], k);
      UrlStep(s, steps[0], k);
      UrlNeverChanges(s', steps[1..], k);
    }
  }

  lemma UrlStep(s: System, step: Step, k: Key)
    requires Inv(s) && k in s.server.proxies && k in Next(s, step).server.proxies
    ensures UrlOf(Next(s, step).server.proxies[k]) == UrlOf(s.server.proxies[k])
  {
    NextIsOneChange(s, step);
  }

  lemma WriteStatusIsOneChange(s: System, id: nat)
    requires ServerSane(s.server)
    ensures OneChange(s.server, Next(s, WriteStatus(id)).server)
  {
    if id in s.runs && s.runs[id].stage == Writing {
      StatusIsOneChange(s.server, s.runs[id].key, s.runs[id].read.(conditions := s.runs[id].conditions));
    }
  }

  lemma WriteStampIsOneChange(s: System, id: nat, now: int)
    requires ServerSane(s.server)
    ensures OneChange(s.server, Next(s, WriteStamp(id, now)).server)
  {
    if id in s.stamps {
      GeneratorStatusIsOneChange(s.server, s.stamps[id].key, s.stamps[id].read.(lastPolled := Some(now)));
    }
  }

  lemma OtherStepsKeepServer(s: System, step: Step)
    requires step.Begin? || step.Proceed? || step.CleanUp? || step.BeginStamp?
    ensures Next(s, step).server == s.server
  {
  }

  lemma NextIsOneChange(s: System, step: Step)
    requires Inv(s)
    ensures OneChange(s.server, Next(s, step).server)
  {
    InvIsSane(s);
    match step
    case External(request) =>
      ServeIsOneChange(s.server, request);
    case WriteStatus(id) =>
      WriteStatusIsOneChange(s, id);
    case WriteStamp(id, now) =>
      WriteStampIsOneChange(s, id, now);
    case _ =>
      OtherStepsKeepServer(s, step);
  }

  /** In every reachable state a version names one state of one generator. */
  lemma VersionsNameGenerators(s: System, k: Key, g: Generator)
    requires Reachable(s) && (k, g) in s.seenGenerators
    requires k in s.server.generators && s.server.generators[k].version == g.version
    ensures s.server.generators[k] == g
  {
    ReachableSatisfiesInv(s);
    assert (k, s.server.generators[k]) in s.seenGenerators;
  }

  /**
   * The write of the poll time never loses a concurrent change: whatever it replaces differs from it in that time only.
   */
  lemma StampLosesNothing(s: System, id: nat, now: int)
    requires Reachable(s) && id in s.stamps && StampWrite(s, id, now).1.Accepted?
    ensures var k, s' := s.stamps[id].key, Next(s, WriteStamp(id, now));
            && k in s.server.generators && s.server.generators[k] == s.stamps[id].read
            && k in s'.server.generators
            && s'.server.generators[k] == s.server.generators[k].(version := s'.server.generators[k].version,
                lastPolled := Some(WholeSeconds(now)))
            && s'.server.generators.Keys == s.server.generators.Keys
            && (forall j | j in s.server.generators && j != k :: s'.server.generators[j] == s.server.generators[j])
            && s'.server.proxies == s.server.proxies
  {
    VersionsNameGenerators(s, s.stamps[id].key, s.stamps[id].read) by {
      ReachableSatisfiesInv(s);
    }
  }

  predicate SaysReady(conditions: map<string, Condition>) {
    READY in conditions && conditions[READY].holds
  }

  predicate IsReady(s: System, k: Key) {
    k in s.server.proxies && SaysReady(s.server.proxies[k].conditions)
  }

  /** Steps other than somebody else writing this proxy's status or deleting it. */
  predicate LeavesStatusToController(step: Step, k: Key) {
    step.External? ==>
      !(step.request.UpdateStatus? && step.request.key == k) && !(step.request.Delete? && step.request.key == k)
  }

  /** Ready is never taken back: no failing run, missing resource or change of the spec clears it. */
  lemma {:induction false} ReadySticks(s: System, steps: seq<Step>, k: Key)
    requires Inv(s) && IsReady(s, k) && forall step | step in steps :: LeavesStatusToController(step, k)
    ensures IsReady(Exec(s, steps), k)
    decreases steps
  {
    if steps != [] {
      NextKeepsInv(s, steps[0]);
      ReadyStep(s, steps[0], k);
      ReadySticks(Next(s, steps[0]), steps[1..], k);
    }
  }

  lemma ReadyStep(s: System, step: Step, k: Key)
    requires Inv(s) && IsReady(s, k) && LeavesStatusToController(step, k)
    ensures IsReady(Next(s, step), k)
  {
    match step
    case External(request) =>
      ReadyServed(s.server, request, k);
      assert Next(s, step).server == Serve(s.server, request);
    case WriteStatus(id) =>
      ReadyWritten(s, id, k);
    case WriteStamp(id, now) =>
      StampsKeepProxies(s, id, now);
    case _ =>
      OtherStepsKeepServer(s, step);
  }

  lemma StampsKeepProxies(s: System, id: nat, now: int)
    ensures Next(s, WriteStamp(id, now)).server.proxies == s.server.proxies
  {
  }

  lemma ReadyWritten(s: System, id: nat, k: Key)
    requires Inv(s) && IsReady(s, k)
    ensures IsReady(Next(s, WriteStatus(id)), k)
  {
    if id in s.runs && s.runs[id].stage == Writing {
      var r := s.runs[id];
      ReadySent(s, id, k);
      StatusKeepsReady(s.server, r.key, r.read.(conditions := r.conditions), k);
      assert Next(s, WriteStatus(id)).server
          == UpdateProxyStatus(s.server, r.key, r.read.(conditions := r.conditions)).0;
    }
  }

  /** A write that would land on a ready proxy says ready itself. */
  lemma ReadySent(s: System, id: nat, k: Key)
    requires Inv(s) && IsReady(s, k) && id in s.runs && s.runs[id].stage == Writing
    ensures var r := s.runs[id];
            r.key == k && r.read.version == s.server.proxies[k].version ==> SaysReady(r.conditions)
  {
    var r := s.runs[id];
    assert (r.key, r.read) in s.seen && (k, s.server.proxies[k]) in s.seen;
  }

  lemma StatusKeepsReady(s: Server, key: Key, p: Proxy, k: Key)
    requires k in s.proxies && SaysReady(s.proxies[k].conditions)
    requires key == k && p.version == s.proxies[k].version ==> SaysReady(p.conditions)
    ensures k in UpdateProxyStatus(s, key, p).0.proxies &&
              SaysReady(UpdateProxyStatus(s, key, p).0.proxies[k].conditions)
  {
  }

  lemma ReadyServed(s: Server, r: Request, k: Key)
    requires k in s.proxies && LeavesStatusToController(External(r), k)
    ensures k in Serve(s, r).proxies && Serve(s, r).proxies[k].conditions == s.proxies[k].conditions
  {
  }

  /** A proxy as somebody sends it to follow another branch. */
  function Repointed(p: Proxy, branch: string): Proxy
    requires p.spec.git.Some?
  {
    p.(spec := p.spec.(git := Some(p.spec.git.value.(reference := branch))))
  }

  /**
   * So a stored Ready does not say that the stored spec was ever applied: pointing a ready proxy to another branch
   * leaves it ready. Readiness.ReadyDescribesItsSpec says how long it does.
   */
  lemma ReadyOutlivesItsSpec(s: System, k: Key, branch: string)
    requires Reachable(s) && IsReady(s, k) && branch != ""
    ensures s.server.proxies[k].spec.git.Some?
    ensures var s' := Next(s, External(Update(k, Repointed(s.server.proxies[k], branch))));
            IsReady(s', k) && s'.server.proxies[k].spec.git.Some? &&
                s'.server.proxies[k].spec.git.value.reference == branch
  {
    StoredProxiesSound(s, k);
    RepointedLands(s.server, k, branch);
    ReadyServed(s.server, Update(k, Repointed(s.server.proxies[k], branch)), k);
  }

  lemma RepointedLands(s: Server, k: Key, branch: string)
    requires k in s.proxies && Sound(s.mutating, s.proxies[k].spec) && branch != ""
    ensures var s' := Serve(s, Update(k, Repointed(s.proxies[k], branch)));
            k in s'.proxies && s'.proxies[k].spec.git.Some? && s'.proxies[k].spec.git.value.reference == branch
  {
  }

  // ------------------------------------------------------------- runs as steps

  lemma {:induction false} ExecConcat(s: System, steps: seq<Step>, more: seq<Step>)
    ensures Exec(s, steps + more) == Exec(Exec(s, steps), more)
    decreases steps
  {
    if steps == [] {
      assert steps + more == more;
    } else {
      assert (steps + more)[0] == steps[0] && (steps + more)[1..] == steps[1..] + more;
      ExecConcat(Next(s, steps[0]), steps[1..], more);
    }
  }

  lemma ReachableOn(s: System, steps: seq<Step>)
    requires Reachable(s)
    ensures Reachable(Exec(s, steps))
  {
    var mutating, earlier :| s == Exec(Init(mutating), earlier);
    ExecConcat(Init(mutating), earlier, steps);
  }

  function Proceeds(id: nat, os: seq<Result>): seq<Step> {
    if os == [] then [] else [Proceed(id, os[0])] + Proceeds(id, os[1..])
  }

  function DiskAfterAll(disk: Disk, r: Run, os: seq<Result>): Disk
    requires r.read.spec.git.Some?
    decreases os
  {
    if os == [] then disk else DiskAfterAll(DiskAfter(disk, r, os[0]), Advance(r, os[0]), os[1..])
  }

  lemma OneStage(disk: Disk, r: Run, o: Result, os: seq<Result>)
    requires r.read.spec.git.Some?
    ensures AdvanceAll(r, [o] + os) == AdvanceAll(Advance(r, o), os)
    ensures DiskAfterAll(disk, r, [o] + os) == DiskAfterAll(DiskAfter(disk, r, o), Advance(r, o), os)
  {
    assert ([o] + os)[1..] == os;
  }

  /** Stages that do not look at the file system take a run where the machine of stages takes it. */
  lemma {:induction false} ProceedsAdvance(s: System, id: nat, os: seq<Result>)
    requires id in s.runs && s.runs[id].read.spec.git.Some? && forall o | o in os :: !o.Held?
    ensures Exec(s, Proceeds(id, os))
         == s.(runs := s.runs[id := AdvanceAll(s.runs[id], os)], disk := DiskAfterAll(s.disk, s.runs[id], os))
    decreases os
  {
    if os == [] {
      assert s.runs[id := s.runs[id]] == s.runs;
    } else {
      assert Proceeds(id, os)[1..] == Proceeds(id, os[1..]);
      assert os[0] in os;
      var s' := Next(s, Proceed(id, os[0]));
      ProceedsAdvance(s', id, os[1..]);
      assert s'.runs[id := AdvanceAll(s'.runs[id], os[1..])] == s.runs[id := AdvanceAll(s.runs[id], os)];
    }
  }

  // ---------------------------------------------------------- polls as steps

  function Externals(rs: seq<Request>): seq<Step> {
    if rs == [] then [] else [External(rs[0])] + Externals(rs[1..])
  }

  lemma {:induction false} ExternalsServeAll(s: System, rs: seq<Request>)
    ensures Exec(s, Externals(rs)).server == ServeAll(s.server, rs)
    decreases rs
  {
    if rs != [] {
      assert Externals(rs)[1..] == Externals(rs[1..]);
      ExternalsServeAll(Next(s, External(rs[0])), rs[1..]);
    }
  }

  /**
   * A generator's whole poll, with everything other clients do meanwhile, is a run of this system; so all of the above
   * holds of it.
   */
  lemma PollIsARun(s: System, g: Source, works: seq<Work>)
    requires Inv(s)
    ensures var s' := Exec(s, Externals(PollRequests(s.server, g, works)));
            Inv(s') && s'.server == Poll(s.server, g, works)
  {
    ReachableInv(s, Externals(PollRequests(s.server, g, works)));
    ExternalsServeAll(s, PollRequests(s.server, g, works));
    PollIsRequests(s.server, g, works);
  }
}
