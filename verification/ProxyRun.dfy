/**
 * One reconciliation of a proxy as a machine of stages, from the read it starts with to the status write it may end
 * with.
 */
module ProxyRun {
  import opened Wrappers
  import opened Api
  import opened Resourcer
  import opened Synthesizer
  import opened Workdir

  const READY := "Ready"
  const AVAILABLE := "Available"

  datatype Stage = FetchingSecret | FetchingHosts | CheckingAccess | Cloning | Synthesizing | Applying | Checking
          | Writing | Stopped

  const IS_READY := Condition(true, "Successful", "Cdk8sAppProxy is ready")
  const CLONE_FAILED := Condition(false, "Failure", "Failed to clone Git Repository")
  const SYNTH_FAILED := Condition(false, "Failure", "Failed to synth cdk8s code")
  const APPLY_FAILED := Condition(false, "Failure", "Failed to apply resources")

  /**
   * `read` is the object the run fetched; `conditions` are those of its working copy; `cloned` is what its clone put on
   * the disk.
   */
  datatype Run = Run(key: Key, read: Proxy, conditions: map<string, Condition>, cloned: Option<Checkout>,
          resources: seq<Manifest>,
                     stage: Stage, acts: seq<Act>, ready: bool, panicked: bool)

  /** How one stage ends; a synthesis works on what it finds at that moment, and a write that is not sent fails. */
  datatype Result = Ok | Fail | Panic | Fetched(tree: Tree) | Held(content: Option<Workspace>) | Saw(missing: bool)

  function Start(k: Key, p: Proxy): Run {
    Run(k, p, p.conditions, None, [], FetchingSecret, [], false, false)
  }

  function Stop(r: Run, o: Result): Run {
    r.(stage := Stopped, panicked := o.Panic?)
  }

  function JobOf(k: Key, p: Proxy): Job
    requires p.spec.git.Some?
  {
    Job(k, p.spec.git.value.reference, p.spec.git.value.path)
  }

  /** The directory a run works in. */
  function DirectoryOf(r: Run): string
    requires r.read.spec.git.Some?
  {
    Directory(r.key, r.read.spec.git.value.reference)
  }

  function Advance(r: Run, o: Result): (r': Run)
    requires r.read.spec.git.Some?
    ensures r'.key == r.key && r'.read == r.read
  {
    var git, selector, directory := r.read.spec.git.value, r.read.spec.selector, DirectoryOf(r);
    match r.stage
    case FetchingSecret => if o.Ok? then r.(stage := FetchingHosts) else Stop(r, o)
    case FetchingHosts => if o.Ok? then r.(stage := CheckingAccess) else Stop(r, o)
    case CheckingAccess => if o.Ok? then r.(stage := Cloning) else Stop(r, o)
    case Cloning =>
      if o.Fetched? then
        r.(stage := Synthesizing, cloned := Some(Checkout(git.url, git.reference, o.tree)),
           acts := r.acts + [Cloned(directory, git.url, git.reference)])
      else Stop(r, o).(conditions := r.conditions[AVAILABLE := CLONE_FAILED])
    case Synthesizing =>
      if o.Held? && SynthesisIn(o.content).Parsed? then
        r.(stage := Applying, resources := SynthesisIn(o.content).value,
           acts := r.acts + [SynthesizedAt(directory, git.path)])
      else Stop(r, o).(conditions := r.conditions[AVAILABLE := SYNTH_FAILED])
    case Applying =>
      if o.Ok? then r.(stage := Checking, acts := r.acts + [AppliedTo(selector, r.resources)])
      else if o.Panic? then Stop(r, o)
      else Stop(r, o).(conditions := r.conditions[READY := APPLY_FAILED])
    case Checking =>
      if o.Saw? then
        r.(stage := Writing, acts := r.acts + [CheckedOn(selector, r.resources)], ready := !o.missing,
           conditions := if o.missing then r.conditions else r.conditions[READY := IS_READY])
      else Stop(r, o)
    case Writing => if o.Fail? then r.(stage := Stopped) else r
    case Stopped => r
  }

  /** What a run that reaches its status write has done, all of it to the spec it read. */
  function Plan(r: Run): seq<Act>
    requires r.read.spec.git.Some?
  {
    var git, selector, directory := r.read.spec.git.value, r.read.spec.selector, DirectoryOf(r);
    [Cloned(directory, git.url, git.reference), SynthesizedAt(directory, git.path),
     AppliedTo(selector, r.resources), CheckedOn(selector, r.resources)]
  }

  /** A run's resources are what its own clone synthesizes to, at the path it read. */
  ghost predicate UsesOwnClone(r: Run) {
    && r.read.spec.git.Some? && r.cloned.Some?
    && Inside(JobOf(r.key, r.read))
    && SynthesisOf(r.cloned.value.tree(Relative(JobOf(r.key, r.read)))) == Parsed(r.resources)
  }

  function Progress(stage: Stage): nat {
    match stage
    case Synthesizing => 1
    case Applying => 2
    case Checking => 3
    case Writing => 4
    case _ => 0
  }

  /** A run that has not stopped has done exactly the first acts of its plan; only its last act can make it ready. */
  ghost predicate OnPlan(r: Run) {
    && r.read.spec.git.Some?
    && (r.stage != Stopped ==> !r.panicked && r.acts == Plan(r)[..Progress(r.stage)])
    && (r.ready ==> r.stage == Writing || r.stage == Stopped)
    && (r.stage != Stopped ==>
          r.conditions == if r.ready then r.read.conditions[READY := IS_READY] else r.read.conditions)
    && (r.stage != Stopped ==> (r.cloned.Some? <==> Progress(r.stage) > 0))
    && (r.cloned.Some? ==>
          r.cloned.value.url == r.read.spec.git.value.url && r.cloned.value.branch == r.read.spec.git.value.reference)
  }

  lemma StartIsOnPlan(k: Key, p: Proxy)
    requires p.spec.git.Some?
    ensures OnPlan(Start(k, p))
  {
    assert Start(k, p).acts == Plan(Start(k, p))[..0];
  }

  lemma AdvanceStaysOnPlan(r: Run, o: Result)
    requires OnPlan(r)
    ensures OnPlan(Advance(r, o))
  {
    var r' := Advance(r, o);
    if r'.stage != Stopped && r'.stage != r.stage && Progress(r'.stage) > 0 {
      var n := Progress(r'.stage);
      assert Plan(r')[..n] == Plan(r')[..n - 1] + [Plan(r')[n - 1]];
      assert Plan(r')[..n - 1] == Plan(r)[..n - 1];
    }
  }

  /** A whole run, given how each of its stages would end. */
  function AdvanceAll(r: Run, os: seq<Result>): (r': Run)
    requires r.read.spec.git.Some?
    ensures r'.key == r.key && r'.read == r.read
    decreases os
  {
    if os == [] then r else AdvanceAll(Advance(r, os[0]), os[1..])
  }

  lemma {:induction false} StoppedStays(r: Run, os: seq<Result>)
    requires r.read.spec.git.Some? && r.stage == Stopped
    ensures AdvanceAll(r, os) == r
  {
    if os != [] {
      StoppedStays(r, os[1..]);
    }
  }

  lemma AdvanceOne(r: Run, os: seq<Result>, i: nat)
    requires r.read.spec.git.Some? && i < |os|
    ensures AdvanceAll(r, os[i..]) == AdvanceAll(Advance(r, os[i]), os[i + 1..])
    ensures Advance(r, os[i]).stage == Stopped ==> AdvanceAll(r, os[i..]) == Advance(r, os[i])
  {
    assert os[i..][1..] == os[i + 1..];
    if Advance(r, os[i]).stage == Stopped {
      StoppedStays(Advance(r, os[i]), os[i + 1..]);
    }
  }

  lemma {:induction false} AdvanceAllStaysOnPlan(r: Run, os: seq<Result>)
    requires OnPlan(r)
    ensures OnPlan(AdvanceAll(r, os))
    decreases os
  {
    if os != [] {
      AdvanceStaysOnPlan(r, os[0]);
      AdvanceAllStaysOnPlan(Advance(r, os[0]), os[1..]);
    }
  }

  lemma {:induction false} AdvanceAllConcat(r: Run, os: seq<Result>, more: seq<Result>)
    requires r.read.spec.git.Some?
    ensures AdvanceAll(r, os + more) == AdvanceAll(AdvanceAll(r, os), more)
    decreases os
  {
    if os == [] {
      assert os + more == more;
    } else {
      assert (os + more)[0] == os[0] && (os + more)[1..] == os[1..] + more;
      AdvanceAllConcat(Advance(r, os[0]), os[1..], more);
    }
  }
}
