/** What a stored Ready says about the stored spec, over every run that follows the write. */
module Readiness {
  import opened Wrappers
  import opened Api
  import opened Admission
  import opened ApiServer
  import opened ProxyRun
  import opened Synthesizer
  import opened Workdir
  import opened Interleaving

  /** An admitted update of this proxy that changes its spec, after defaulting. */
  ghost predicate ChangesSpec(s: System, step: Step, k: Key) {
    && step.External? && step.request.Update? && step.request.key == k
    && k in s.server.proxies && UpdateProxy(s.server, k, step.request.proxy).1.Accepted?
    && Mutate(s.server.mutating, step.request.proxy.spec) != s.server.proxies[k].spec
  }

  ghost predicate SpecUntouched(s: System, steps: seq<Step>, k: Key)
    decreases steps
  {
    steps != [] ==> !ChangesSpec(s, steps[0], k) && SpecUntouched(Next(s, steps[0]), steps[1..], k)
  }

  /** The proxy is stored with this spec before and after every step. */
  ghost predicate SpecHolds(s: System, steps: seq<Step>, k: Key, spec: ProxySpec)
    decreases steps
  {
    && k in s.server.proxies && s.server.proxies[k].spec == spec
    && (steps != [] ==> SpecHolds(Next(s, steps[0]), steps[1..], k, spec))
  }

  lemma ServedSpec(s: Server, r: Request, k: Key)
    requires k in s.proxies && k in Serve(s, r).proxies
    ensures Serve(s, r).proxies[k].spec == s.proxies[k].spec <==>
              !(r.Update? && r.key == k && UpdateProxy(s, k, r.proxy).1.Accepted? &&
                  Mutate(s.mutating, r.proxy.spec) != s.proxies[k].spec)
  {
  }

  lemma StepSpec(s: System, step: Step, k: Key)
    requires k in s.server.proxies && k in Next(s, step).server.proxies
    ensures Next(s, step).server.proxies[k].spec == s.server.proxies[k].spec <==> !ChangesSpec(s, step, k)
  {
    match step
    case External(request) =>
      ServedSpec(s.server, request, k);
      assert Next(s, step).server == Serve(s.server, request);
    case WriteStatus(id) =>
      if id in s.runs && s.runs[id].stage == Writing {
        var r := s.runs[id];
        StatusKeepsSpec(s.server, r.key, r.read.(conditions := r.conditions), k);
      }
    case WriteStamp(id, now) =>
      StampsKeepProxies(s, id, now);
    case _ =>
      OtherStepsKeepServer(s, step);
  }

  lemma StatusKeepsSpec(s: Server, key: Key, p: Proxy, k: Key)
    requires k in s.proxies
    ensures k in UpdateProxyStatus(s, key, p).0.proxies &&
              UpdateProxyStatus(s, key, p).0.proxies[k].spec == s.proxies[k].spec
  {
  }

  /** While a proxy is stored, it keeps its spec exactly as long as nobody changes it by an admitted update. */
  lemma {:induction false} SpecHoldsExactly(s: System, steps: seq<Step>, k: Key)
    requires StaysStored(s, steps, k)
    ensures SpecHolds(s, steps, k, s.server.proxies[k].spec) <==> SpecUntouched(s, steps, k)
    decreases steps
  {
    if steps != [] {
      assert StaysStored(Next(s, steps[0]), steps[1..], k);
      StepSpec(s, steps[0], k);
      SpecHoldsExactly(Next(s, steps[0]), steps[1..], k);
    }
  }

  /**
   * After an accepted ready write, over any run during which the proxy stays stored, the stored spec is the one that
   * was applied exactly as long as no admitted update changes it. Ready itself says nothing about it
   * (ReadyOutlivesItsSpec).
   */
  lemma ReadyDescribesItsSpec(s: System, id: nat, steps: seq<Step>)
    requires Reachable(s) && id in s.runs && s.runs[id].stage == Writing && s.runs[id].ready
    requires StatusWrite(s, id).1.Accepted?
    requires StaysStored(Next(s, WriteStatus(id)), steps, s.runs[id].key)
    ensures var k, written := s.runs[id].key, Next(s, WriteStatus(id));
            && IsReady(written, k)
            && (SpecHolds(written, steps, k, s.runs[id].read.spec) <==> SpecUntouched(written, steps, k))
            && ((forall step | step in steps :: LeavesStatusToController(step, k)) ==> IsReady(Exec(written, steps), k))
  {
    AcceptedReadyMatchesSpec(s, id);
    var k, written := s.runs[id].key, Next(s, WriteStatus(id));
    SpecHoldsExactly(written, steps, k);
    ReachableSatisfiesInv(s);
    NextKeepsInv(s, WriteStatus(id));
    if forall step | step in steps :: LeavesStatusToController(step, k) {
      ReadySticks(written, steps, k);
    }
  }

  // ------------------------------------------------------- ready states exist

  function Fresh(git: GitRepo): Proxy {
    Proxy(0, map[], map[], None, ProxySpec(Some(git), Selector(map[], [])), map[])
  }

  /** A run up to its clone. */
  function ClonedRun(k: Key, p: Proxy, tree: Tree): Run
    requires p.spec.git.Some?
  {
    var git := p.spec.git.value;
    Start(k, p).(stage := Synthesizing, cloned := Some(Checkout(git.url, git.reference, tree)),
                 acts := [Cloned(Directory(k, git.reference), git.url, git.reference)])
  }

  function CloneSteps(id: nat, k: Key, p: Proxy, tree: Tree): seq<Step> {
    [Begin(id, k, p)] + Proceeds(id, [Ok, Ok, Ok, Fetched(tree)])
  }

  lemma CloneStepsRun(s: System, id: nat, k: Key, p: Proxy, tree: Tree)
    requires (k, p) in s.seen && p.spec.git.Some? && id !in s.runs
    ensures var run := ClonedRun(k, p, tree);
            Exec(s, CloneSteps(id, k, p, tree)) ==
                s.(runs := s.runs[id := run], disk := WithClone(s.disk, PlaceOf(JobOf(k, p)), run.cloned.value))
  {
    var begun, os := Next(s, Begin(id, k, p)), [Ok, Ok, Ok, Fetched(tree)];
    ExecConcat(s, [Begin(id, k, p)], Proceeds(id, os));
    assert Exec(s, [Begin(id, k, p)]) == begun;
    ProceedsAdvance(begun, id, os);
    CloneRunIs(k, p, tree, s.disk);
    assert begun.runs[id := ClonedRun(k, p, tree)] == s.runs[id := ClonedRun(k, p, tree)];
  }

  lemma CloneRunIs(k: Key, p: Proxy, tree: Tree, disk: Disk)
    requires p.spec.git.Some?
    ensures var os, run := [Ok, Ok, Ok, Fetched(tree)], ClonedRun(k, p, tree);
            && AdvanceAll(Start(k, p), os) == run
            && DiskAfterAll(disk, Start(k, p), os) == WithClone(disk, PlaceOf(JobOf(k, p)), run.cloned.value)
  {
    var r := Start(k, p);
    var last := [Fetched(tree)];
    OneStage(disk, r, Ok, [Ok] + ([Ok] + last));
    OneStage(disk, r.(stage := FetchingHosts), Ok, [Ok] + last);
    OneStage(disk, r.(stage := CheckingAccess), Ok, last);
    OneStage(disk, r.(stage := Cloning), Fetched(tree), []);
    assert last + [] == last && [Ok] + ([Ok] + ([Ok] + last)) == [Ok, Ok, Ok, Fetched(tree)];
  }

  /** A run that synthesizes what it finds, applies it and finds it there. */
  function ReadyRun(r: Run, content: Option<Workspace>): Run
    requires r.read.spec.git.Some? && SynthesisIn(content).Parsed?
  {
    var git, selector := r.read.spec.git.value, r.read.spec.selector;
    var resources := SynthesisIn(content).value;
    r.(stage := Writing, resources := resources, ready := true, conditions := r.conditions[READY := IS_READY],
       acts := r.acts + [SynthesizedAt(DirectoryOf(r), git.path)] + [AppliedTo(selector,
           resources)] + [CheckedOn(selector, resources)])
  }

  function ReadySteps(id: nat, content: Option<Workspace>): seq<Step> {
    [Proceed(id, Held(content)), Proceed(id, Ok), Proceed(id, Saw(false))]
  }

  lemma ProceedOne(s: System, id: nat, o: Result, r: Run)
    requires id in s.runs && s.runs[id].read.spec.git.Some? && s.runs[id].stage != Cloning && Honest(s, s.runs[id], o)
    requires r == Advance(s.runs[id], o)
    ensures Next(s, Proceed(id, o)) == s.(runs := s.runs[id := r])
  {
  }

  lemma ReadyRunIs(r: Run, content: Option<Workspace>) returns (r1: Run, r2: Run, r3: Run)
    requires r.stage == Synthesizing && r.read.spec.git.Some? && SynthesisIn(content).Parsed?
    ensures r1 == Advance(r, Held(content)) && r1.stage == Applying && r1.read == r.read
    ensures r2 == Advance(r1, Ok) && r2.stage == Checking && r2.read == r.read
    ensures r3 == Advance(r2, Saw(false)) == ReadyRun(r, content)
  {
    r1 := Advance(r, Held(content));
    r2 := Advance(r1, Ok);
    r3 := Advance(r2, Saw(false));
  }

  lemma ReadyStepsRun(s: System, id: nat, content: Option<Workspace>)
    requires id in s.runs && s.runs[id].stage == Synthesizing && s.runs[id].read.spec.git.Some?
    requires Sees(s.disk, SpotOf(JobOf(s.runs[id].key, s.runs[id].read)), content) && SynthesisIn(content).Parsed?
    ensures Exec(s, ReadySteps(id, content)) == s.(runs := s.runs[id := ReadyRun(s.runs[id], content)])
  {
    var r := s.runs[id];
    var r1, r2, r3 := ReadyRunIs(r, content);
    ProceedOne(s, id, Held(content), r1);
    var s1 := s.(runs := s.runs[id := r1]);
    ProceedOne(s1, id, Ok, r2);
    var s2 := s1.(runs := s1.runs[id := r2]);
    ProceedOne(s2, id, Saw(false), r3);
    assert s1.runs[id := r2][id := r3] == s.runs[id := r3];
    ThreeSteps(s, Proceed(id, Held(content)), Proceed(id, Ok), Proceed(id, Saw(false)));
  }

  lemma ThreeSteps(s: System, a: Step, b: Step, c: Step)
    ensures Exec(s, [a, b, c]) == Next(Next(Next(s, a), b), c)
  {
    assert [a, b, c][1..] == [b, c] && [b, c][1..] == [c] && [c][1..] == [];
    assert Exec(s, [a, b, c]) == Exec(Next(s, a), [b, c]) == Exec(Next(Next(s, a), b), [c]);
    assert Exec(Next(Next(s, a), b), [c]) == Exec(Next(Next(Next(s, a), b), c), []);
  }

  lemma OneStep(s: System, step: Step)
    ensures Exec(s, [step]) == Next(s, step)
  {
    assert [step][1..] == [];
    assert Exec(Next(s, step), []) == Next(s, step);
  }

  /** Creating a proxy in a state that has none by that name. */
  lemma CreateStep(s: System, k: Key, git: GitRepo)
    requires !s.server.mutating && k !in s.server.proxies && git.url != ""
    ensures var s', p := Next(s, External(Create(k, Fresh(git)))), Fresh(git).(version := s.server.clock + 1);
            && s'.server == s.server.(clock := s.server.clock + 1, proxies := s.server.proxies[k := p])
            && (k, p) in s'.seen && s.seen <= s'.seen && s'.runs == s.runs && s'.disk == s.disk
  {
    var s' := Next(s, External(Create(k, Fresh(git))));
    assert s'.server.proxies[k] == Fresh(git).(version := s.server.clock + 1);
  }

  /** An up-to-date write of a ready run makes its proxy ready. */
  lemma ReadyWrite(s: System, id: nat)
    requires id in s.runs && s.runs[id].stage == Writing && SaysReady(s.runs[id].conditions)
    requires s.runs[id].key in s.server.proxies && s.server.proxies[s.runs[id].key] == s.runs[id].read
    ensures var k, s' := s.runs[id].key, Next(s, WriteStatus(id));
            && StatusWrite(s, id).1.Accepted?
            && IsReady(s', k) && s'.server.proxies[k].spec == s.runs[id].read.spec
  {
  }

  /**
   * For every key and every repository that synthesizes at a path within it there is a reachable state with a ready
   * proxy.
   */
  lemma ReadyIsReachable(k: Key, git: GitRepo, tree: Tree) returns (s: System)
    requires var job := Job(k, git.reference, git.path);
             git.url != "" && Inside(job) && SynthesisOf(tree(Relative(job))).Parsed?
    ensures Reachable(s) && IsReady(s, k) && s.server.proxies[k].spec.git == Some(git)
  {
    var create := External(Create(k, Fresh(git)));
    CreateStep(Init(false), k, git);
    OneStep(Init(false), create);
    var s0, p := Next(Init(false), create), Fresh(git).(version := 1);
    CloneStepsRun(s0, 0, k, p, tree);
    var s1, job := Exec(s0, CloneSteps(0, k, p, tree)), Job(k, git.reference, git.path);
    OwnPlace(s1.disk, PlaceOf(job), SpotOf(job));
    var content := Some(tree(Relative(job)));
    ReadyStepsRun(s1, 0, content);
    var steps := ReadySteps(0, content);
    var s2 := Exec(s1, steps);
    ReadyWrite(s2, 0);
    OneStep(s2, WriteStatus(0));
    s := Next(s2, WriteStatus(0));
    ReachableOn(s0, CloneSteps(0, k, p, tree));
    ReachableOn(s1, steps);
    ReachableOn(s2, [WriteStatus(0)]);
  }
}
