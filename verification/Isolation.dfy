/**
 * Whether a run deploys what it cloned itself, although all runs share one file system, derive their directories from
 * names joined by dashes, and take branches and paths as they come.
 */
module Isolation {
  import opened Wrappers
  import opened Text
  import opened Api
  import opened ApiServer
  import opened ProxyRun
  import opened Synthesizer
  import opened Workdir
  import opened Interleaving
  import opened Readiness

  /** What a controller works on. */
  type Workload = iset<Job>

  /** The work queue hands a key to one worker at a time. */
  ghost predicate Dispatched(s: System, step: Step, load: Workload) {
    step.Begin? && step.read.spec.git.Some? ==>
      && JobOf(step.key, step.read) in load
      && forall id | id in s.runs :: s.runs[id].key != step.key
  }

  ghost predicate Queued(s: System, steps: seq<Step>, load: Workload)
    decreases steps
  {
    steps != [] ==> Dispatched(s, steps[0], load) && Queued(Next(s, steps[0]), steps[1..], load)
  }

  /**
   * What one job may do to another. If the path of `e` stays in its clone, a directory related to its own must belong
   * to the same proxy and must not lie beneath its own (where a failed clean-up may have left a clone). If the path
   * leads out, it must lead away from every clone: then nothing is ever found there.
   */
  predicate Clear(e: Job, f: Job) {
    if Inside(e) then Related(PlaceOf(f), PlaceOf(e)) ==> PlaceOf(f) <= PlaceOf(e) && f.key == e.key
    else !Related(PlaceOf(f), SpotOf(e))
  }

  ghost predicate Apart(load: Workload) {
    forall e, f | e in load && f in load :: Clear(e, f)
  }

  /** Whenever a ready run's write is accepted, its resources are what its own clone synthesizes to. */
  ghost predicate ReadyMeansOwnClone(load: Workload) {
    forall mutating, steps, id | Queued(Init(mutating), steps, load) ::
      AcceptedReady(Exec(Init(mutating), steps), id) ==> UsesOwnClone(Exec(Init(mutating), steps).runs[id])
  }

  ghost predicate AcceptedReady(s: System, id: nat) {
    id in s.runs && s.runs[id].stage == Writing && s.runs[id].ready && StatusWrite(s, id).1.Accepted?
  }

  // ------------------------------------------------- apart: every run on its own

  /** The part of a run that the file system may still spoil, and the part it no longer can. */
  ghost predicate RunIsOwn(disk: Disk, r: Run) {
    && r.read.spec.git.Some?
    && (r.stage == Synthesizing ==>
          r.cloned.Some? && (Inside(JobOf(r.key, r.read)) ==>
                               PlaceOf(JobOf(r.key, r.read)) in disk &&
                                   disk[PlaceOf(JobOf(r.key, r.read))] == r.cloned.value))
    && (r.stage == Applying || r.stage == Checking || r.stage == Writing ==> UsesOwnClone(r))
  }

  /** Every clone on the file system was made for a job of the workload. */
  ghost predicate DiskIsOwn(disk: Disk, load: Workload) {
    forall q | q in disk :: exists f :: f in load && q == PlaceOf(f)
  }

  ghost predicate OwnInv(s: System, load: Workload) {
    && DiskIsOwn(s.disk, load)
    && (forall id | id in s.runs :: RunIsOwn(s.disk, s.runs[id]) && JobOf(s.runs[id].key, s.runs[id].read) in load)
    && (forall i, j | i in s.runs && j in s.runs && i != j :: s.runs[i].key != s.runs[j].key)
  }

  /** A clone or a clean-up for a job of another proxy leaves a run on its own. */
  lemma OthersLeaveOwn(disk: Disk, load: Workload, r: Run, f: Job, checkout: Checkout)
    requires Apart(load) && RunIsOwn(disk, r) && JobOf(r.key, r.read) in load && f in load && f.key != r.key
    ensures RunIsOwn(WithClone(disk, PlaceOf(f), checkout), r)
    ensures RunIsOwn(Without(disk, PlaceOf(f)), r)
  {
    assert Clear(JobOf(r.key, r.read), f);
  }

  lemma DiskStaysOwn(disk: Disk, load: Workload, f: Job, checkout: Checkout)
    requires DiskIsOwn(disk, load) && f in load
    ensures DiskIsOwn(WithClone(disk, PlaceOf(f), checkout), load)
    ensures DiskIsOwn(Without(disk, PlaceOf(f)), load)
  {
  }

  /** A stage other than the clone keeps the file system, and from the synthesis on what the run uses. */
  lemma LaterStaysOwn(disk: Disk, r: Run, o: Result)
    requires RunIsOwn(disk, r) && r.stage != Cloning && r.stage != Synthesizing
    ensures RunIsOwn(disk, Advance(r, o))
  {
    var r' := Advance(r, o);
    assert r'.stage == Checking || r'.stage == Writing ==> r'.resources == r.resources && r'.cloned == r.cloned;
  }

  /** What the synthesis of a run finds, if the workload is apart. */
  lemma FindsOwn(disk: Disk, load: Workload, r: Run, content: Option<Workspace>)
    requires Apart(load) && DiskIsOwn(disk, load) && RunIsOwn(disk, r) && r.stage == Synthesizing
    requires JobOf(r.key, r.read) in load && Sees(disk, SpotOf(JobOf(r.key, r.read)), content)
    ensures var e := JobOf(r.key, r.read); content == if Inside(e) then Some(r.cloned.value.tree(Relative(e))) else None
  {
    var e := JobOf(r.key, r.read);
    forall q | q in disk
      ensures if Inside(e) then !(PlaceOf(e) < q) else !Related(q, SpotOf(e))
    {
      var f :| f in load && q == PlaceOf(f);
      assert Clear(e, f);
    }
    if Inside(e) {
      OwnPlace(disk, PlaceOf(e), SpotOf(e));
    } else {
      NoPlace(disk, SpotOf(e));
    }
  }

  lemma AdvanceStaysOwn(disk: Disk, load: Workload, r: Run, o: Result)
    requires Apart(load) && DiskIsOwn(disk, load) && RunIsOwn(disk, r) && JobOf(r.key, r.read) in load
    requires o.Held? ==> Sees(disk, SpotOf(JobOf(r.key, r.read)), o.content)
    ensures RunIsOwn(DiskAfter(disk, r, o), Advance(r, o))
  {
    if r.stage == Synthesizing {
      if o.Held? {
        FindsOwn(disk, load, r, o.content);
        SynthesisStaysOwn(disk, r, o.content);
      }
    } else if r.stage != Cloning {
      LaterStaysOwn(disk, r, o);
    }
  }

  lemma SynthesisStaysOwn(disk: Disk, r: Run, content: Option<Workspace>)
    requires RunIsOwn(disk, r) && r.stage == Synthesizing
    requires var e := JobOf(r.key, r.read);
             content == if Inside(e) then Some(r.cloned.value.tree(Relative(e))) else None
    ensures RunIsOwn(disk, Advance(r, Held(content)))
  {
    var r' := Advance(r, Held(content));
    assert r'.stage == Applying ==> r'.cloned == r.cloned && SynthesisIn(content) == Parsed(r'.resources);
  }

  lemma ProceedStaysOwn(s: System, load: Workload, id: nat, o: Result)
    requires OwnInv(s, load) && Apart(load)
    ensures OwnInv(Next(s, Proceed(id, o)), load)
  {
    if id in s.runs && Honest(s, s.runs[id], o) {
      var r := s.runs[id];
      AdvanceStaysOwn(s.disk, load, r, o);
      if r.stage == Cloning && o.Fetched? {
        OthersStayOwn(s, load, id, Advance(r, o).cloned.value);
        DiskStaysOwn(s.disk, load, JobOf(r.key, r.read), Advance(r, o).cloned.value);
      }
      OneRunStaysOwn(s, load, id, Advance(r, o), DiskAfter(s.disk, r, o));
    }
  }

  /** What one run does to the file system leaves every other on its own. */
  lemma OthersStayOwn(s: System, load: Workload, id: nat, checkout: Checkout)
    requires OwnInv(s, load) && Apart(load) && id in s.runs
    ensures var place := PlaceOf(JobOf(s.runs[id].key, s.runs[id].read));
            forall j | j in s.runs && j != id ::
              RunIsOwn(WithClone(s.disk, place, checkout), s.runs[j]) && RunIsOwn(Without(s.disk, place), s.runs[j])
  {
    forall j | j in s.runs && j != id
      ensures var place := PlaceOf(JobOf(s.runs[id].key, s.runs[id].read));
              RunIsOwn(WithClone(s.disk, place, checkout), s.runs[j]) && RunIsOwn(Without(s.disk, place), s.runs[j])
    {
      OthersLeaveOwn(s.disk, load, s.runs[j], JobOf(s.runs[id].key, s.runs[id].read), checkout);
    }
  }

  lemma OneRunStaysOwn(s: System, load: Workload, id: nat, r: Run, disk: Disk)
    requires OwnInv(s, load) && id in s.runs && r.key == s.runs[id].key && r.read == s.runs[id].read
    requires DiskIsOwn(disk, load) && RunIsOwn(disk, r)
    requires forall j | j in s.runs && j != id :: RunIsOwn(disk, s.runs[j])
    ensures OwnInv(s.(runs := s.runs[id := r], disk := disk), load)
  {
  }

  lemma CleanUpStaysOwn(s: System, load: Workload, id: nat, removed: bool)
    requires OwnInv(s, load) && Apart(load)
    ensures OwnInv(Next(s, CleanUp(id, removed)), load)
  {
    if id in s.runs && s.runs[id].stage == Stopped {
      var f := JobOf(s.runs[id].key, s.runs[id].read);
      var disk := if removed then Without(s.disk, PlaceOf(f)) else s.disk;
      var any := Checkout("", "", Blank());
      DiskStaysOwn(s.disk, load, f, any);
      OthersStayOwn(s, load, id, any);
      FewerRunsStayOwn(s, load, id, disk);
    }
  }

  lemma FewerRunsStayOwn(s: System, load: Workload, id: nat, disk: Disk)
    requires OwnInv(s, load) && DiskIsOwn(disk, load)
    requires forall j | j in s.runs && j != id :: RunIsOwn(disk, s.runs[j])
    ensures OwnInv(s.(runs := s.runs - {id}, disk := disk), load)
  {
  }

  lemma StepStaysOwn(s: System, step: Step, load: Workload)
    requires OwnInv(s, load) && Apart(load) && Dispatched(s, step, load)
    ensures OwnInv(Next(s, step), load)
  {
    match step
    case Proceed(id, o) =>
      ProceedStaysOwn(s, load, id, o);
    case CleanUp(id, removed) =>
      CleanUpStaysOwn(s, load, id, removed);
    case Begin(id, k, p) =>
      BeginStaysOwn(s, load, id, k, p);
    case WriteStatus(id) =>
      WriteStaysOwn(s, load, id);
    case _ =>
      assert Next(s, step).runs == s.runs && Next(s, step).disk == s.disk;
      SameRunsStayOwn(s, Next(s, step), load);
  }

  lemma SameRunsStayOwn(s: System, s': System, load: Workload)
    requires OwnInv(s, load) && s'.runs == s.runs && s'.disk == s.disk
    ensures OwnInv(s', load)
  {
  }

  lemma BeginStaysOwn(s: System, load: Workload, id: nat, k: Key, p: Proxy)
    requires OwnInv(s, load) && Dispatched(s, Begin(id, k, p), load)
    ensures OwnInv(Next(s, Begin(id, k, p)), load)
  {
    if Next(s, Begin(id, k, p)) != s {
      MoreRunsStayOwn(s, load, id, Start(k, p));
    }
  }

  lemma MoreRunsStayOwn(s: System, load: Workload, id: nat, r: Run)
    requires OwnInv(s, load) && id !in s.runs && RunIsOwn(s.disk, r) && JobOf(r.key, r.read) in load
    requires forall j | j in s.runs :: s.runs[j].key != r.key
    ensures OwnInv(s.(runs := s.runs[id := r]), load)
  {
  }

  lemma WriteStaysOwn(s: System, load: Workload, id: nat)
    requires OwnInv(s, load)
    ensures OwnInv(Next(s, WriteStatus(id)), load)
  {
    if id in s.runs && s.runs[id].stage == Writing {
      OneRunStaysOwn(s, load, id, s.runs[id].(stage := Stopped), s.disk);
      SameRunsStayOwn(s.(runs := s.runs[id := s.runs[id].(stage := Stopped)]), Next(s, WriteStatus(id)), load);
    }
  }

  lemma {:induction false} QueuedStaysOwn(s: System, steps: seq<Step>, load: Workload)
    requires OwnInv(s, load) && Apart(load) && Queued(s, steps, load)
    ensures OwnInv(Exec(s, steps), load)
    decreases steps
  {
    if steps != [] {
      StepStaysOwn(s, steps[0], load);
      QueuedStaysOwn(Next(s, steps[0]), steps[1..], load);
    }
  }

  /**
   * The headline: if the workload is apart, then whenever the write of a ready run is accepted, the proxy stored at
   * that instant is the object it read, its path stays in its clone, and what it applied and found on every selected
   * cluster is what the stored repository and branch synthesized to at the stored path when this very run cloned
   * them.
   */
  lemma ReadyIsDeployed(mutating: bool, steps: seq<Step>, load: Workload, id: nat)
    requires Queued(Init(mutating), steps, load) && Apart(load)
    requires AcceptedReady(Exec(Init(mutating), steps), id)
    ensures var s := Exec(Init(mutating), steps);
            var r := s.runs[id];
            && r.key in s.server.proxies && s.server.proxies[r.key] == r.read
            && r.read.spec.git.Some? && r.cloned.Some? && Inside(JobOf(r.key, r.read))
            && (var git := s.server.proxies[r.key].spec.git.value;
                && r.cloned.value.url == git.url && r.cloned.value.branch == git.reference
                && SynthesisOf(r.cloned.value.tree(Relative(JobOf(r.key, r.read)))) == Parsed(r.resources))
            && r.acts == Plan(r)
  {
    var s := Exec(Init(mutating), steps);
    assert Reachable(s);
    AcceptedReadyMatchesSpec(s, id);
    ReachableSatisfiesInv(s);
    QueuedStaysOwn(Init(mutating), steps, load);
    assert UsesOwnClone(s.runs[id]);
  }

  // ------------------------------------------------ not apart: a foreign clone

  lemma {:induction false} QueuedConcat(s: System, steps: seq<Step>, more: seq<Step>, load: Workload)
    requires Queued(s, steps, load) && Queued(Exec(s, steps), more, load)
    ensures Queued(s, steps + more, load)
    decreases steps
  {
    if steps == [] {
      assert steps + more == more;
    } else {
      assert (steps + more)[0] == steps[0] && (steps + more)[1..] == steps[1..] + more;
      QueuedConcat(Next(s, steps[0]), steps[1..], more, load);
    }
  }

  /** Steps that start no run need no dispatch. */
  lemma {:induction false} NoBeginIsQueued(s: System, steps: seq<Step>, load: Workload)
    requires forall step | step in steps :: !step.Begin?
    ensures Queued(s, steps, load)
    decreases steps
  {
    if steps != [] {
      assert steps[0] in steps;
      NoBeginIsQueued(Next(s, steps[0]), steps[1..], load);
    }
  }

  lemma OneBeginIsQueued(s: System, id: nat, k: Key, p: Proxy, more: seq<Step>, load: Workload)
    requires Dispatched(s, Begin(id, k, p), load) && forall step | step in more :: !step.Begin?
    ensures Queued(s, [Begin(id, k, p)] + more, load)
  {
    var steps := [Begin(id, k, p)] + more;
    assert steps[1..] == more;
    NoBeginIsQueued(Next(s, steps[0]), more, load);
  }

  lemma {:induction false} ProceedsDoNotBegin(id: nat, os: seq<Result>)
    ensures forall step | step in Proceeds(id, os) :: !step.Begin?
  {
    if os != [] {
      ProceedsDoNotBegin(id, os[1..]);
    }
  }

  lemma CloneStepsQueued(s: System, id: nat, k: Key, p: Proxy, tree: Tree, load: Workload)
    requires Dispatched(s, Begin(id, k, p), load)
    ensures Queued(s, CloneSteps(id, k, p, tree), load)
  {
    ProceedsDoNotBegin(id, [Ok, Ok, Ok, Fetched(tree)]);
    OneBeginIsQueued(s, id, k, p, Proceeds(id, [Ok, Ok, Ok, Fetched(tree)]), load);
  }

  /** A tree that does not synthesize, and one that synthesizes to nothing, wherever one looks. */
  function Broken(): Tree {
    _ => Workspace(false, [], _ => Unusable, _ => Unreadable)
  }

  function BlankWorkspace(): Workspace {
    Workspace(true, [], _ => Unusable, _ => Unreadable)
  }

  function Blank(): Tree {
    _ => BlankWorkspace()
  }

  function Repository(url: string, j: Job): GitRepo {
    GitRepo(url, j.branch, j.path, "", "", "")
  }

  /** A run that fails at once, and cleans up nevertheless: everything at or beneath its directory. */
  function FailingSteps(id: nat, k: Key, p: Proxy): seq<Step> {
    [Begin(id, k, p), Proceed(id, Fail), CleanUp(id, true)]
  }

  lemma FailingStepsRun(s: System, id: nat, k: Key, p: Proxy, load: Workload)
    requires (k, p) in s.seen && p.spec.git.Some? && id !in s.runs && Dispatched(s, Begin(id, k, p), load)
    ensures Exec(s, FailingSteps(id, k, p)) == s.(disk := Without(s.disk, PlaceOf(JobOf(k, p))))
    ensures Queued(s, FailingSteps(id, k, p), load)
  {
    ThreeSteps(s, Begin(id, k, p), Proceed(id, Fail), CleanUp(id, true));
    var s1 := Next(s, Begin(id, k, p));
    var s2 := Next(s1, Proceed(id, Fail));
    var s3 := Next(s2, CleanUp(id, true));
    assert s3.runs == s.runs;
    assert FailingSteps(id, k, p) == [Begin(id, k, p)] + [Proceed(id, Fail), CleanUp(id, true)];
    OneBeginIsQueued(s, id, k, p, [Proceed(id, Fail), CleanUp(id, true)], load);
  }

  /**
   * Steps at the end of which run 0 is about to synthesize its job, its own clone holds nothing of use, and it finds
   * something else.
   */
  ghost predicate Spoils(s: System, steps: seq<Step>, load: Workload, e: Job) {
    Queued(s, steps, load) && Spoiled(Exec(s, steps), e)
  }

  ghost predicate Spoiled(s: System, e: Job) {
    && 0 in s.runs && s.runs[0].stage == Synthesizing && s.runs[0].conditions == map[]
    && s.runs[0].key == e.key && s.runs[0].read.spec.git.Some? && JobOf(e.key, s.runs[0].read) == e
    && s.runs[0].cloned.Some? && s.runs[0].cloned.value.tree == Broken()
    && e.key in s.server.proxies && s.server.proxies[e.key] == s.runs[0].read
    && Sees(s.disk, SpotOf(e), Some(BlankWorkspace()))
  }

  /** A blank clone around a place, with no other clone between. */
  lemma BlankAround(disk: Disk, other: Place, spot: Place)
    requires other in disk && other <= spot && disk[other].tree == Blank()
    requires forall q | q in disk && q <= spot :: q <= other
    ensures Sees(disk, spot, Some(BlankWorkspace()))
  {
    var n := |other|;
    assert spot[..n] == other;
    forall m | n < m <= |spot|
      ensures spot[..m] !in disk
    {
      assert spot[..m] <= spot;
    }
    assert Nearest(disk, spot, |spot|) == Some(n);
  }

  /** A clone beneath a place that no clone encloses. */
  lemma CloneBeneath(disk: Disk, other: Place, spot: Place)
    requires other in disk && spot < other
    requires forall q | q in disk :: !(q <= spot)
    ensures Disturbed(disk, spot)
  {
    forall m | 0 <= m <= |spot|
      ensures spot[..m] !in disk
    {
      assert spot[..m] <= spot;
    }
    assert RootAt(disk, spot) == spot;
  }

  /** A clone within the clone around a place. */
  lemma CloneWithin(disk: Disk, own: Place, other: Place, spot: Place)
    requires own in disk && other in disk && own <= spot && own < other && !(other <= spot)
    requires forall q | q in disk :: q == own || q == other
    ensures Disturbed(disk, spot)
  {
    var n := |own|;
    assert spot[..n] == own;
    forall m | n < m <= |spot|
      ensures spot[..m] !in disk
    {
      assert spot[..m] <= spot && |spot[..m]| != n;
    }
    assert RootAt(disk, spot) == own;
  }

  /** A job sees the blank clone of one that it is not clear of, be its own clone replaced, removed or merely joined. */
  lemma BlankIsSeen(disk: Disk, e: Job, f: Job)
    requires PlaceOf(f) in disk && forall q | q in disk :: q == PlaceOf(f) || q == PlaceOf(e)
    requires PlaceOf(f) != PlaceOf(e) ==> disk[PlaceOf(f)].tree == Blank()
    requires if Inside(e) then Related(PlaceOf(f), PlaceOf(e)) else Related(PlaceOf(f), SpotOf(e))
    requires Inside(e) && PlaceOf(f) <= PlaceOf(e) ==>
               disk[PlaceOf(f)].tree == Blank() && (PlaceOf(e) in disk ==> PlaceOf(e) == PlaceOf(f))
    requires Inside(e) && !(PlaceOf(f) <= PlaceOf(e)) ==> PlaceOf(e) in disk
    ensures Sees(disk, SpotOf(e), Some(BlankWorkspace()))
  {
    var spot, own, other := SpotOf(e), PlaceOf(e), PlaceOf(f);
    if other <= spot {
      BlankAround(disk, other, spot);
    } else if Inside(e) {
      CloneWithin(disk, own, other, spot);
    } else {
      CloneBeneath(disk, other, spot);
    }
  }

  // Another proxy spoils the job.

  /** Two proxies, both created. */
  lemma TwoProxies(e: Job, f: Job, load: Workload) returns (steps: seq<Step>)
    requires e.key != f.key
    ensures Queued(Init(false), steps, load)
    ensures var s := Exec(Init(false), steps);
            var p, q := Fresh(Repository("a", e)).(version := 1), Fresh(Repository("b", f)).(version := 2);
            && (e.key, p) in s.seen && (f.key, q) in s.seen && s.runs == map[] && s.disk == map[]
            && e.key in s.server.proxies && s.server.proxies[e.key] == p
  {
    var c, d := External(Create(e.key, Fresh(Repository("a", e)))), External(Create(f.key, Fresh(Repository("b", f))));
    steps := [c] + [d];
    CreateStep(Init(false), e.key, Repository("a", e));
    OneStep(Init(false), c);
    var s1 := Next(Init(false), c);
    CreateStep(s1, f.key, Repository("b", f));
    OneStep(s1, d);
    ExecConcat(Init(false), [c], [d]);
    NoBeginIsQueued(Init(false), steps, load);
  }

  /** After the clone of `e`, a run of `f` fails and cleans up, and the next run of `f` clones. */
  function ForeignSteps(e: Job, p: Proxy, f: Job, q: Proxy): seq<Step> {
    CloneSteps(0, e.key, p, Broken()) + (FailingSteps(1, f.key, q) + CloneSteps(1, f.key, q, Blank()))
  }

  function ForeignDisk(e: Job, p: Proxy, f: Job, q: Proxy): Disk
    requires p.spec.git.Some? && q.spec.git.Some?
  {
    WithClone(Without(WithClone(map[], PlaceOf(e), ClonedRun(e.key, p, Broken()).cloned.value), PlaceOf(f)),
              PlaceOf(f), ClonedRun(f.key, q, Blank()).cloned.value)
  }

  lemma ForeignStepsRun(s: System, e: Job, p: Proxy, f: Job, q: Proxy, load: Workload)
    requires e.key != f.key && (e.key, p) in s.seen && (f.key, q) in s.seen && s.runs == map[] && s.disk == map[]
    requires p.spec.git.Some? && q.spec.git.Some? && JobOf(e.key, p) == e && JobOf(f.key, q) == f && e in load &&
              f in load
    ensures Queued(s, ForeignSteps(e, p, f, q), load)
    ensures var s' := Exec(s, ForeignSteps(e, p, f, q));
            && s'.server == s.server && s'.disk == ForeignDisk(e, p, f, q)
            && 0 in s'.runs && s'.runs[0] == ClonedRun(e.key, p, Broken())
  {
    var first, second, third := CloneSteps(0, e.key, p, Broken()), FailingSteps(1, f.key, q), CloneSteps(1, f.key, q,
        Blank());
    CloneStepsQueued(s, 0, e.key, p, Broken(), load);
    CloneStepsRun(s, 0, e.key, p, Broken());
    var s1 := Exec(s, first);
    FailingStepsRun(s1, 1, f.key, q, load);
    var s2 := Exec(s1, second);
    CloneStepsQueued(s2, 1, f.key, q, Blank(), load);
    CloneStepsRun(s2, 1, f.key, q, Blank());
    ExecConcat(s1, second, third);
    ExecConcat(s, first, second + third);
    QueuedConcat(s1, second, third, load);
    QueuedConcat(s, first, second + third, load);
  }

  lemma AnotherSpoils(e: Job, f: Job, load: Workload) returns (steps: seq<Step>)
    requires e in load && f in load && e.key != f.key && !Clear(e, f)
    ensures Spoils(Init(false), steps, load, e)
  {
    var created := TwoProxies(e, f, load);
    var s := Exec(Init(false), created);
    var p, q := Fresh(Repository("a", e)).(version := 1), Fresh(Repository("b", f)).(version := 2);
    var foreign := ForeignSteps(e, p, f, q);
    ForeignStepsRun(s, e, p, f, q, load);
    BlankIsSeen(ForeignDisk(e, p, f, q), e, f);
    steps := created + foreign;
    QueuedConcat(Init(false), created, foreign, load);
    ExecConcat(Init(false), created, foreign);
  }

  // What an earlier run of the same proxy left behind spoils the job.

  /** A run that clones, fails to synthesize and fails to clean up. */
  function LeavingSteps(id: nat, k: Key, p: Proxy): seq<Step> {
    CloneSteps(id, k, p, Blank()) + [Proceed(id, Fail), CleanUp(id, false)]
  }

  /** A failing synthesis and a failing clean-up leave nothing but the clone. */
  lemma LeavingEnds(s: System, id: nat, load: Workload)
    requires id in s.runs && s.runs[id].stage == Synthesizing && s.runs[id].read.spec.git.Some?
    ensures Exec(s, [Proceed(id, Fail), CleanUp(id, false)]) == s.(runs := s.runs - {id})
    ensures Queued(s, [Proceed(id, Fail), CleanUp(id, false)], load)
  {
    var s1 := Next(s, Proceed(id, Fail));
    var s2 := Next(s1, CleanUp(id, false));
    OneStep(s, Proceed(id, Fail));
    OneStep(s1, CleanUp(id, false));
    ExecConcat(s, [Proceed(id, Fail)], [CleanUp(id, false)]);
    assert [Proceed(id, Fail)] + [CleanUp(id, false)] == [Proceed(id, Fail), CleanUp(id, false)];
    assert s2.runs == s.runs - {id};
    NoBeginIsQueued(s, [Proceed(id, Fail), CleanUp(id, false)], load);
  }

  lemma LeavingStepsRun(s: System, id: nat, k: Key, p: Proxy, load: Workload)
    requires (k, p) in s.seen && p.spec.git.Some? && id !in s.runs && Dispatched(s, Begin(id, k, p), load)
    ensures Exec(s, LeavingSteps(id, k, p))
         == s.(disk := WithClone(s.disk, PlaceOf(JobOf(k, p)), ClonedRun(k, p, Blank()).cloned.value))
    ensures Queued(s, LeavingSteps(id, k, p), load)
  {
    var first, rest := CloneSteps(id, k, p, Blank()), [Proceed(id, Fail), CleanUp(id, false)];
    CloneStepsQueued(s, id, k, p, Blank(), load);
    CloneStepsRun(s, id, k, p, Blank());
    var s1 := Exec(s, first);
    LeavingEnds(s1, id, load);
    assert s1.runs - {id} == s.runs;
    ExecConcat(s, first, rest);
    QueuedConcat(s, first, rest, load);
  }

  /** Pointing a proxy to another job of its own. */
  lemma UpdateStep(s: System, e: Job, f: Job)
    requires !s.server.mutating && e.key in s.server.proxies &&
              s.server.proxies[e.key].spec == Fresh(Repository("a", f)).spec
    ensures var p := s.server.proxies[e.key].(spec := Fresh(Repository("a", e)).spec);
            var s' := Next(s, External(Update(e.key, p)));
            && e.key in s'.server.proxies && s'.server.proxies[e.key].spec == p.spec
            && s'.server.proxies[e.key].conditions == s.server.proxies[e.key].conditions
            && (e.key, s'.server.proxies[e.key]) in s'.seen && s'.runs == s.runs && s'.disk == s.disk
  {
  }

  /** Creating a proxy with the one job, running it, and pointing it to the other. */
  lemma LeftBehind(e: Job, f: Job, load: Workload) returns (steps: seq<Step>)
    requires f in load && e.key == f.key
    ensures Queued(Init(false), steps, load)
    ensures var s := Exec(Init(false), steps);
            && s.runs == map[] && s.disk.Keys == {PlaceOf(f)} && s.disk[PlaceOf(f)].tree == Blank()
            && e.key in s.server.proxies && (e.key, s.server.proxies[e.key]) in s.seen
            && s.server.proxies[e.key].spec == Fresh(Repository("a", e)).spec &&
                s.server.proxies[e.key].conditions == map[]
  {
    var k, create := e.key, External(Create(e.key, Fresh(Repository("a", f))));
    CreateStep(Init(false), k, Repository("a", f));
    OneStep(Init(false), create);
    var s1, p := Next(Init(false), create), Fresh(Repository("a", f)).(version := 1);
    LeavingStepsRun(s1, 1, k, p, load);
    var s2 := Exec(s1, LeavingSteps(1, k, p));
    UpdateStep(s2, e, f);
    var update := External(Update(k, s2.server.proxies[k].(spec := Fresh(Repository("a", e)).spec)));
    OneStep(s2, update);
    NoBeginIsQueued(Init(false), [create], load);
    NoBeginIsQueued(s2, [update], load);
    steps := Chained(Init(false), [create], LeavingSteps(1, k, p), [update], load);
  }

  lemma LeftoverSpoils(e: Job, f: Job, load: Workload) returns (steps: seq<Step>)
    requires e in load && f in load && e.key == f.key && !Clear(e, f)
    ensures Spoils(Init(false), steps, load, e)
  {
    var before := LeftBehind(e, f, load);
    var s := Exec(Init(false), before);
    var q := s.server.proxies[e.key];
    CloneStepsQueued(s, 0, e.key, q, Broken(), load);
    CloneStepsRun(s, 0, e.key, q, Broken());
    BlankIsSeen(WithClone(s.disk, PlaceOf(e), ClonedRun(e.key, q, Broken()).cloned.value), e, f);
    steps := before + CloneSteps(0, e.key, q, Broken());
    QueuedConcat(Init(false), before, CloneSteps(0, e.key, q, Broken()), load);
    ExecConcat(Init(false), before, CloneSteps(0, e.key, q, Broken()));
  }

  lemma Chained(s: System, a: seq<Step>, b: seq<Step>, c: seq<Step>, load: Workload) returns (steps: seq<Step>)
    requires Queued(s, a, load) && Queued(Exec(s, a), b, load) && Queued(Exec(Exec(s, a), b), c, load)
    ensures Queued(s, steps, load) && Exec(s, steps) == Exec(Exec(Exec(s, a), b), c)
  {
    QueuedConcat(Exec(s, a), b, c, load);
    ExecConcat(Exec(s, a), b, c);
    QueuedConcat(s, a, b + c, load);
    ExecConcat(s, a, b + c);
    steps := a + (b + c);
  }

  /** Then the spoiled proxy is declared ready although its own repository does not even synthesize. */
  lemma SpoiledIsReady(steps: seq<Step>, load: Workload, e: Job)
    requires Spoils(Init(false), steps, load, e)
    ensures !ReadyMeansOwnClone(load)
  {
    var s := Exec(Init(false), steps);
    var content := Some(BlankWorkspace());
    ReadyStepsRun(s, 0, content);
    var finished := ReadySteps(0, content);
    NoBeginIsQueued(s, finished, load);
    var s' := Exec(s, finished);
    ReadyWrite(s', 0);
    assert !UsesOwnClone(s'.runs[0]);
    QueuedConcat(Init(false), steps, finished, load);
    ExecConcat(Init(false), steps, finished);
    assert AcceptedReady(Exec(Init(false), steps + finished), 0);
  }

  /**
   * A ready proxy's resources always come from its own clone exactly if the workload is apart. The controller does not
   * see to that: it joins namespace, name and branch by dashes, and lets branches and paths be anything.
   */
  lemma OwnCloneExactly(load: Workload)
    ensures ReadyMeansOwnClone(load) <==> Apart(load)
  {
    if Apart(load) {
      forall mutating, steps, id | Queued(Init(mutating), steps, load) && AcceptedReady(Exec(Init(mutating), steps), id)
        ensures UsesOwnClone(Exec(Init(mutating), steps).runs[id])
      {
        ReadyIsDeployed(mutating, steps, load, id);
      }
    } else {
      var e, f :| e in load && f in load && !Clear(e, f);
      var steps;
      if e.key != f.key {
        steps := AnotherSpoils(e, f, load);
      } else {
        steps := LeftoverSpoils(e, f, load);
      }
      SpoiledIsReady(steps, load, e);
    }
  }

  // ---------------------------------------------------------------- instances

  /** Jobs that cannot meet: no dashes or slashes in namespace and name, no slash in the branch, no ".." in the path. */
  predicate Simple(j: Job) {
    && '-' !in j.key.namespace && '/' !in j.key.namespace
    && '-' !in j.key.name && '/' !in j.key.name
    && '/' !in j.branch && ".." !in Split(j.path, '/')
  }

  lemma {:induction false} StaysInside(parts: seq<string>, before: Place)
    requires ".." !in parts
    ensures before <= Normalised(parts, before)
    decreases parts
  {
    if parts != [] {
      StaysInside(parts[1..], if parts[0] == "" || parts[0] == "." then before else before + [parts[0]]);
    }
  }

  lemma SimplePlace(j: Job)
    requires Simple(j)
    ensures PlaceOf(j) == ["tmp", Directory(j.key, j.branch)[5..]] && Inside(j) && Plain(PlaceOf(j)[1])
  {
    var rest := Directory(j.key, j.branch)[5..];
    assert Directory(j.key, j.branch)[..5] == "/tmp/";
    assert rest == "cdk8s-" + j.key.namespace + "-" + j.key.name + "-" + j.branch;
    assert Directory(j.key, j.branch) == "/tmp" + ['/'] + rest;
    SplitConcat("/tmp", rest, '/');
    SplitWhole(rest, '/');
    assert "/tmp" == "" + ['/'] + "tmp";
    SplitConcat("", "tmp", '/');
    SplitWhole("tmp", '/');
    assert rest[0] == 'c';
    var parts := ["", "tmp", rest];
    assert Split(Directory(j.key, j.branch), '/') == parts && parts[1..] == ["tmp", rest];
    PlainIsNormal(["tmp", rest], []);
    assert Normalised(parts, []) == Normalised(["tmp", rest], []) == [] + ["tmp", rest];
    StaysInside(Split(j.path, '/'), PlaceOf(j));
  }

  lemma SimpleJobsAreApart()
    ensures Apart(iset j: Job | Simple(j))
  {
    forall e: Job, f: Job | Simple(e) && Simple(f)
      ensures Clear(e, f)
    {
      SimplePlace(e);
      SimplePlace(f);
      if Related(PlaceOf(f), PlaceOf(e)) {
        var a, b := Directory(e.key, e.branch), Directory(f.key, f.branch);
        assert a[5..] == PlaceOf(e)[1] == PlaceOf(f)[1] == b[5..];
        assert a == a[..5] + a[5..] && b == b[..5] + b[5..] && a[..5] == "/tmp/" == b[..5];
        DirectoryWithoutDashes(e.key, e.branch, f.key, f.branch);
      }
    }
  }

  lemma UpAndOver(parent: string, own: string, name: string)
    requires Plain(name)
    ensures Normalised(Split(".." + ['/'] + name, '/'), [parent, own]) == [parent, name]
  {
    SplitFirst("..", name, '/');
    SplitWhole(name, '/');
    NormalisedInTurn([".."], [name], [parent, own]);
    OneUp(parent, own);
    PlainIsNormal([name], [parent]);
  }

  lemma OneUp(parent: string, own: string)
    ensures Normalised([".."], [parent, own]) == [parent]
  {
    assert [".."][1..] == [] && [parent, own][..1] == [parent];
  }

  /** From the clone of any proxy a path leads into the clone of any other. */
  lemma PathLeadsOut(e: Job, f: Job)
    requires Simple(e.(path := "")) && Simple(f) && e.key != f.key
    requires e.path == ".." + ['/'] + Directory(f.key, f.branch)[5..]
    ensures SpotOf(e) == PlaceOf(f) && !ReadyMeansOwnClone(iset{e, f})
  {
    SimplePlace(e.(path := ""));
    SimplePlace(f);
    var own, name := PlaceOf(e)[1], PlaceOf(f)[1];
    UpAndOver("tmp", own, name);
    if Inside(e) {
      assert Related(PlaceOf(f), PlaceOf(e)) && PlaceOf(f) == SpotOf(e);
    }
    assert !Clear(e, f);
    OwnCloneExactly(iset{e, f});
  }

  /**
   * So it fails for two proxies on one branch, and for two whose directories merely lie in one another; it holds for
   * all simple jobs together.
   */
  lemma DashesDecide()
    ensures !ReadyMeansOwnClone(iset{Job(Key("a", "b-c"), "main", "."), Job(Key("a-b", "c"), "main", ".")})
    ensures !ReadyMeansOwnClone(iset{Job(Key("a", "b-c"), "main", ""), Job(Key("a-b", "c"), "main/x", "")})
    ensures ReadyMeansOwnClone(iset j: Job | Simple(j))
  {
    SamePlaceClashes(Job(Key("a", "b-c"), "main", "."), Job(Key("a-b", "c"), "main", "."));
    DirectoriesNest();
    var outer, inner := Job(Key("a", "b-c"), "main", ""), Job(Key("a-b", "c"), "main/x", "");
    NotClear(inner, outer);
    SimpleJobsAreApart();
    OwnCloneExactly(iset j: Job | Simple(j));
  }

  lemma SamePlaceClashes(e: Job, f: Job)
    requires e == Job(Key("a", "b-c"), "main", ".") && f == Job(Key("a-b", "c"), "main", ".")
    ensures !ReadyMeansOwnClone(iset{e, f})
  {
    DirectoriesClash();
    NotClear(e, f);
  }

  lemma NotClear(e: Job, f: Job)
    requires e.key != f.key && PlaceOf(f) <= PlaceOf(e) && (e.path == "" || e.path == ".")
    ensures !ReadyMeansOwnClone(iset{e, f}) && !ReadyMeansOwnClone(iset{f, e})
  {
    SplitWhole(e.path, '/');
    assert [e.path][1..] == [];
    assert SpotOf(e) == Normalised([], PlaceOf(e)) == PlaceOf(e);
    assert !Clear(e, f);
    OwnCloneExactly(iset{e, f});
    assert iset{e, f} == iset{f, e};
  }
}
