/** The proxy controller's code as runs of the interleaved system, and what follows for it. */
module ProxyRefinement {
  import opened Wrappers
  import opened Api
  import opened ApiServer
  import opened ProxyRun
  import opened Workdir
  import opened Interleaving
  import ProxyController
  import Isolation
  import Synthesizer

  // ----------------------------------------------------- the proxy controller

  /** A step of anybody but this run. */
  predicate NotOf(id: nat, step: Step) {
    match step
    case Begin(i, _, _) => i != id
    case Proceed(i, _) => i != id
    case WriteStatus(i) => i != id
    case CleanUp(i, _) => i != id
    case _ => true
  }

  ghost predicate NoneOf(id: nat, steps: seq<Step>) {
    forall step | step in steps :: NotOf(id, step)
  }

  lemma {:induction false} OthersKeepRun(s: System, steps: seq<Step>, id: nat)
    requires id in s.runs && NoneOf(id, steps)
    ensures id in Exec(s, steps).runs && Exec(s, steps).runs[id] == s.runs[id]
    decreases steps
  {
    if steps != [] {
      assert steps[0] in steps;
      OthersKeepRun(Next(s, steps[0]), steps[1..], id);
    }
  }

  function FirstStages(disk: Disk, k: Key, p: Proxy, w: ProxyController.World): seq<Result>
    requires p.spec.git.Some?
  {
    ProxyController.Results(disk, k, p, w)[..4]
  }

  function LastStages(disk: Disk, k: Key, p: Proxy, w: ProxyController.World): seq<Result>
    requires p.spec.git.Some?
  {
    ProxyController.Results(disk, k, p, w)[5..]
  }

  function Synthesis(disk: Disk, k: Key, p: Proxy, w: ProxyController.World): Result
    requires p.spec.git.Some?
  {
    Held(ProxyController.Found(disk, k, p.spec.git.value, w))
  }

  /** The steps of a run up to its clone, and all of them up to its status write, with those of others in between. */
  function FetchSteps(disk: Disk, id: nat, k: Key, p: Proxy, w: ProxyController.World): seq<Step>
    requires p.spec.git.Some?
  {
    [Begin(id, k, p)] + Proceeds(id, FirstStages(disk, k, p, w))
  }

  function DeploySteps(disk: Disk, id: nat, k: Key, p: Proxy, w: ProxyController.World): seq<Step>
    requires p.spec.git.Some?
  {
    Proceeds(id, [Synthesis(disk, k, p, w)] + LastStages(disk, k, p, w))
  }

  function StepsOf(disk: Disk, id: nat, k: Key, p: Proxy, w: ProxyController.World, between: seq<Step>,
                   later: seq<Step>): seq<Step>
    requires p.spec.git.Some?
  {
    FetchSteps(disk, id, k, p, w) + (between + (DeploySteps(disk, id, k, p, w) + later))
  }

  /**
   * The world of a reconciliation is what the steps of others amount to: between its clone and its synthesis they make
   * of the file system what the world says, and by its status write they have made of the server what the world says.
   */
  ghost predicate Amounts(s: System, id: nat, k: Key, p: Proxy, w: ProxyController.World, between: seq<Step>,
          later: seq<Step>)
    requires p.spec.git.Some?
  {
    var fetched := Exec(s, FetchSteps(s.disk, id, k, p, w));
    && NoneOf(id, between) && NoneOf(id, later)
    && Exec(fetched, between).disk == w.meddled(fetched.disk)
    && Exec(s, StepsOf(s.disk, id, k, p, w, between, later)).server == ServeAll(s.server, w.foreign)
  }

  lemma FetchStepsRun(s: System, id: nat, k: Key, p: Proxy, w: ProxyController.World)
    requires (k, p) in s.seen && p.spec.git.Some? && id !in s.runs
    ensures var s' := Exec(s, FetchSteps(s.disk, id, k, p, w));
            && id in s'.runs && s'.runs[id] == AdvanceAll(Start(k, p), FirstStages(s.disk, k, p, w))
            && s'.disk == DiskAfterAll(s.disk, Start(k, p), FirstStages(s.disk, k, p, w))
  {
    var begun, os := Next(s, Begin(id, k, p)), FirstStages(s.disk, k, p, w);
    ExecConcat(s, [Begin(id, k, p)], Proceeds(id, os));
    assert [Begin(id, k, p)][1..] == [] && Exec(begun, []) == begun;
    assert Exec(s, [Begin(id, k, p)]) == begun;
    ProceedsAdvance(begun, id, os);
  }

  /** A run that got to its synthesis has its clone on the file system. */
  lemma FetchedDisk(disk: Disk, k: Key, p: Proxy, w: ProxyController.World)
    requires p.spec.git.Some?
    ensures var os := FirstStages(disk, k, p, w);
            var r := AdvanceAll(Start(k, p), os);
            && r.key == k && r.read == p
            && (r.stage == Synthesizing || r.stage == Stopped)
            && (r.stage == Synthesizing ==>
                  DiskAfterAll(disk, Start(k, p), os) == ProxyController.DiskWithClone(disk, k, p.spec.git.value, w))
  {
    var os := FirstStages(disk, k, p, w);
    var r := Start(k, p);
    FourStages(disk, r, os[0], os[1], os[2], os[3]);
    assert os == [os[0], os[1], os[2], os[3]];
  }

  lemma FourStages(disk: Disk, r: Run, a: Result, b: Result, c: Result, d: Result)
    requires r.read.spec.git.Some? && r.stage == FetchingSecret
    ensures var r' := AdvanceAll(r, [a, b, c, d]);
            && r'.key == r.key && r'.read == r.read
            && (r'.stage == Synthesizing || r'.stage == Stopped)
            && (r'.stage == Synthesizing ==>
                  && d.Fetched?
                  && DiskAfterAll(disk, r, [a, b, c, d])
                     == (var git := r.read.spec.git.value; WithClone(disk, PlaceOf(JobOf(r.key, r.read)),
                         Checkout(git.url, git.reference, d.tree))))
  {
    var r1 := Advance(r, a);
    var r2 := Advance(r1, b);
    var r3 := Advance(r2, c);
    OneStage(disk, r, a, [b, c, d]);
    OneStage(disk, r1, b, [c, d]);
    OneStage(disk, r2, c, [d]);
    OneStage(disk, r3, d, []);
    assert [a] + [b, c, d] == [a, b, c, d] && [b] + [c, d] == [b, c, d] && [c] + [d] == [c, d] && [d] + [] == [d];
  }

  /** The rest of a run, from a state in which it finds what the world says it finds. */
  lemma DeployStepsRun(s: System, id: nat, disk: Disk, k: Key, p: Proxy, w: ProxyController.World)
    requires id in s.runs && s.runs[id].key == k && s.runs[id].read == p && p.spec.git.Some?
    requires s.runs[id].stage == Stopped ||
             Sees(s.disk, SpotOf(JobOf(k, p)), ProxyController.Found(disk, k, p.spec.git.value, w))
    ensures var s' := Exec(s, DeploySteps(disk, id, k, p, w));
            id in s'.runs && s'.runs[id] == AdvanceAll(s.runs[id], [Synthesis(disk, k, p, w)] + LastStages(disk, k, p,
                w))
  {
    var o, os := Synthesis(disk, k, p, w), LastStages(disk, k, p, w);
    var s1 := Next(s, Proceed(id, o));
    assert ([o] + os)[1..] == os;
    assert Proceeds(id, [o] + os) == [Proceed(id, o)] + Proceeds(id, os);
    assert Proceeds(id, [o] + os)[1..] == Proceeds(id, os);
    assert s1.runs[id] == Advance(s.runs[id], o);
    ProceedsAdvance(s1, id, os);
  }

  /** Where the steps of a reconciliation take its run. */
  lemma StepsOfRun(s: System, id: nat, k: Key, p: Proxy, w: ProxyController.World, between: seq<Step>, later: seq<Step>)
    requires (k, p) in s.seen && p.spec.git.Some? && id !in s.runs && Amounts(s, id, k, p, w, between, later)
    ensures var s1 := Exec(s, StepsOf(s.disk, id, k, p, w, between, later));
            id in s1.runs && s1.runs[id] == ProxyController.FinalRun(s.disk, k, p, w)
  {
    var fetched := Exec(s, FetchSteps(s.disk, id, k, p, w));
    FetchStepsRun(s, id, k, p, w);
    FetchedDisk(s.disk, k, p, w);
    var met := Exec(fetched, between);
    OthersKeepRun(fetched, between, id);
    DeployStepsRun(met, id, s.disk, k, p, w);
    OthersKeepRun(Exec(met, DeploySteps(s.disk, id, k, p, w)), later, id);
    ThreeParts(s, FetchSteps(s.disk, id, k, p, w), between, DeploySteps(s.disk, id, k, p, w), later);
    AllStages(s.disk, k, p, w);
  }

  lemma ThreeParts(s: System, first: seq<Step>, second: seq<Step>, third: seq<Step>, fourth: seq<Step>)
    ensures Exec(s, first + (second + (third + fourth))) == Exec(Exec(Exec(Exec(s, first), second), third), fourth)
  {
    ExecConcat(s, first, second + (third + fourth));
    ExecConcat(Exec(s, first), second, third + fourth);
    ExecConcat(Exec(Exec(s, first), second), third, fourth);
  }

  lemma AllStages(disk: Disk, k: Key, p: Proxy, w: ProxyController.World)
    requires p.spec.git.Some?
    ensures AdvanceAll(AdvanceAll(Start(k, p), FirstStages(disk, k, p, w)), [Synthesis(disk, k, p,
              w)] + LastStages(disk, k, p, w))
         == ProxyController.FinalRun(disk, k, p, w)
  {
    var first, last := FirstStages(disk, k, p, w), [Synthesis(disk, k, p, w)] + LastStages(disk, k, p, w);
    AdvanceAllConcat(Start(k, p), first, last);
    assert first + last == ProxyController.Results(disk, k, p, w);
  }

  /** The status write of the code is the status-write step of the system, and one that is not sent a failing stage. */
  lemma WriteIsTheStep(s: System, s1: System, id: nat, run: Run, w: ProxyController.World)
    requires id in s1.runs && s1.runs[id] == run && run.stage == Writing && s1.server == ServeAll(s.server, w.foreign)
    requires run.read.spec.git.Some?
    ensures var s2 := Next(s1, if w.send.NotSent? then Proceed(id, Fail) else WriteStatus(id));
            && s2.server == ProxyController.Written(s.server, run, w) && s2.disk == s1.disk
            && s2.runs == s1.runs[id := run.(stage := Stopped)]
  {
  }

  /** The write of a run that gets to it, which may not be sent, and the deferred clean-up of every run. */
  function LastSteps(id: nat, run: Run, w: ProxyController.World): seq<Step> {
    (if run.stage != Writing then [] else if w.send.NotSent? then [Proceed(id, Fail)] else [WriteStatus(id)])
    + [CleanUp(id, w.removed)]
  }

  /** The first of them, which only a run that gets to its write takes. */
  lemma WriteStepRun(s: System, s1: System, id: nat, run: Run, w: ProxyController.World)
    requires id in s1.runs && s1.runs[id] == run && run.read.spec.git.Some? && run.stage == Writing
    requires s1.server == ServeAll(s.server, w.foreign)
    ensures var s2 := Exec(s1, if w.send.NotSent? then [Proceed(id, Fail)] else [WriteStatus(id)]);
            && s2.server == ProxyController.Written(s.server, run, w) && s2.disk == s1.disk
            && s2.runs == s1.runs[id := run.(stage := Stopped)]
  {
    WriteIsTheStep(s, s1, id, run, w);
    var step := if w.send.NotSent? then Proceed(id, Fail) else WriteStatus(id);
    assert [step][1..] == [];
    assert Exec(s1, [step]) == Exec(Next(s1, step), []);
  }

  lemma CleanUpRun(s: System, id: nat, removed: bool)
    requires id in s.runs && s.runs[id].stage == Stopped && s.runs[id].read.spec.git.Some?
    ensures var place := PlaceOf(JobOf(s.runs[id].key, s.runs[id].read));
            Exec(s, [CleanUp(id, removed)])
            == s.(runs := s.runs - {id}, disk := if removed then Without(s.disk, place) else s.disk)
  {
    assert [CleanUp(id, removed)][1..] == [];
    assert Exec(s, [CleanUp(id, removed)]) == Exec(Next(s, CleanUp(id, removed)), []);
  }

  lemma LastStepsRun(s: System, s1: System, id: nat, run: Run, w: ProxyController.World)
    requires id in s1.runs && s1.runs[id] == run && run.read.spec.git.Some?
    requires run.stage == Writing || run.stage == Stopped
    requires run.stage == Writing ==> s1.server == ServeAll(s.server, w.foreign)
    ensures var s2, place := Exec(s1, LastSteps(id, run, w)), PlaceOf(JobOf(run.key, run.read));
            && s2.runs == s1.runs - {id}
            && s2.server == (if run.stage == Writing then ProxyController.Written(s.server, run, w) else s1.server)
            && s2.disk == if w.removed then Without(s1.disk, place) else s1.disk
  {
    if run.stage == Writing {
      WriteStepRun(s, s1, id, run, w);
      var first := if w.send.NotSent? then [Proceed(id, Fail)] else [WriteStatus(id)];
      CleanUpRun(Exec(s1, first), id, w.removed);
      ExecConcat(s1, first, [CleanUp(id, w.removed)]);
      assert s1.runs[id := run.(stage := Stopped)] - {id} == s1.runs - {id};
    } else {
      CleanUpRun(s1, id, w.removed);
      assert [] + [CleanUp(id, w.removed)] == [CleanUp(id, w.removed)];
    }
  }

  /**
   * A reconciliation that started from any state its proxy ever had is a run of the interleaved system: its stages take
   * the run to the end, then come the write (sent or not) and the deferred clean-up. If nobody else touches the file
   * system after the synthesis, that ends as the code leaves it as well.
   */
  lemma ReconcileIsARun(s: System, id: nat, k: Key, p: Proxy, w: ProxyController.World, between: seq<Step>,
          later: seq<Step>)
    requires (k, p) in s.seen && p.spec.git.Some? && id !in s.runs && Amounts(s, id, k, p, w, between, later)
    ensures var s1, run := Exec(s, StepsOf(s.disk, id, k, p, w, between, later)), ProxyController.FinalRun(s.disk, k, p,
              w);
            var s2 := Exec(s1, LastSteps(id, run, w));
            && id in s1.runs && s1.runs[id] == run && (run.stage == Writing || run.stage == Stopped)
            && s2.runs == s1.runs - {id}
            && s2.server == (if run.stage == Writing then ProxyController.Written(s.server, run, w) else s1.server)
            && (s1.disk == ProxyController.DiskReached(s.disk, k, p, w) ==>
                  s2.disk == ProxyController.DiskLeft(s.disk, k, Some(p), w))
  {
    StepsOfRun(s, id, k, p, w, between, later);
    ProxyController.FinalRunEnds(s.disk, k, p, w);
    ProxyController.FinalRunKeeps(s.disk, k, p, w);
    LastStepsRun(s, Exec(s, StepsOf(s.disk, id, k, p, w, between, later)), id, ProxyController.FinalRun(s.disk, k, p,
        w), w);
  }

  /** A ready run carries what its clone call put on the file system. */
  lemma ReadyRunCloned(disk: Disk, k: Key, p: Proxy, w: ProxyController.World)
    requires p.spec.git.Some? && ProxyController.FinalRun(disk, k, p, w).ready
    ensures var git := p.spec.git.value;
            ProxyController.FinalRun(disk, k, p, w).cloned ==
                Some(Checkout(git.url, git.reference, w.holds(git.url, git.reference)))
  {
    ProxyController.ReadyExactly(disk, k, p, w);
    ProxyController.FinalRunClone(disk, k, p, w);
  }

  /**
   * The headline, for the controller's own code: whatever other clients and other reconciliations do meanwhile, and
   * however stale its read was, provided the work queue runs one reconciliation per key and the workload is apart: if a
   * reconciliation finds everything in place and its status write is accepted, then the proxy stored at that instant is
   * the one it read, and what it applied and found on the selected clusters is what the repository and branch stored
   * there synthesized to, at the path stored there, when it cloned them.
   */
  lemma ReadyIsEarned(mutating: bool, earlier: seq<Step>, load: Isolation.Workload,
                      id: nat, k: Key, p: Proxy, w: ProxyController.World, between: seq<Step>, later: seq<Step>)
    requires var s := Exec(Init(mutating), earlier);
             && (k, p) in s.seen && p.spec.git.Some? && id !in s.runs && Amounts(s, id, k, p, w, between, later)
             && Isolation.Queued(Init(mutating), earlier + StepsOf(s.disk, id, k, p, w, between, later), load)
             && Isolation.Apart(load)
             && ProxyController.FinalRun(s.disk, k, p, w).ready
             && var r := ProxyController.FinalRun(s.disk, k, p, w);
                UpdateProxyStatus(ServeAll(s.server, w.foreign), k, p.(conditions := r.conditions)).1.Accepted?
    ensures var s := Exec(Init(mutating), earlier);
            var stored, run := ServeAll(s.server, w.foreign).proxies, ProxyController.FinalRun(s.disk, k, p, w);
            && k in stored && stored[k] == p && Inside(JobOf(k, p))
            && (var git := stored[k].spec.git.value;
                Synthesizer.SynthesisOf(w.holds(git.url, git.reference)(Relative(JobOf(k, p)))) ==
                    Synthesizer.Parsed(run.resources))
            && run.read == p && run.acts == Plan(run)
  {
    var s := Exec(Init(mutating), earlier);
    var steps := StepsOf(s.disk, id, k, p, w, between, later);
    var run := ProxyController.FinalRun(s.disk, k, p, w);
    ReconcileIsARun(s, id, k, p, w, between, later);
    ProxyController.ReadyExactly(s.disk, k, p, w);
    ProxyController.FinalRunKeeps(s.disk, k, p, w);
    ExecConcat(Init(mutating), earlier, steps);
    assert Isolation.AcceptedReady(Exec(Init(mutating), earlier + steps), id);
    Isolation.ReadyIsDeployed(mutating, earlier + steps, load, id);
    ReadyRunCloned(s.disk, k, p, w);
  }
}
