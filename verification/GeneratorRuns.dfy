/**
 * What the generator controller's reconciliations add up to: histories of the poll schedule, and runs of the
 * interleaved system.
 */
module GeneratorRuns {
  import opened Wrappers
  import opened Api
  import opened ApiServer
  import opened Clock
  import opened Render
  import opened Schedule
  import opened GeneratorController
  import opened Interleaving

  // ---------------------------------------------------- reconciliations as visits

  /** None of the requests writes this generator's status or deletes it; its spec may change at any time. */
  predicate LeavesTime(rs: seq<Request>, k: Key) {
    forall r | r in rs && (r.ChangeGeneratorStatus? || r.DeleteGenerator?) :: r.key != k
  }

  lemma {:induction false} ServeAllLeavesTime(s: Server, rs: seq<Request>, k: Key)
    requires k in s.generators && LeavesTime(rs, k)
    ensures k in ServeAll(s, rs).generators && ServeAll(s, rs).generators[k].lastPolled == s.generators[k].lastPolled
    decreases rs
  {
    if rs != [] {
      assert rs[0] in rs;
      ServeAllLeavesTime(Serve(s, rs[0]), rs[1..], k);
    }
  }

  lemma {:induction false} PollLeavesTime(s: Server, g: Source, works: seq<Work>, k: Key)
    requires forall w | w in works :: LeavesTime(w.env.foreign, k)
    ensures LeavesTime(PollRequests(s, g, works), k)
    decreases works
  {
    if works != [] {
      assert works[0] in works;
      PollLeavesTime(ReconcilePR(s, g, works[0]).0, g, works[1..], k);
    }
  }

  /** The attempt whose write landed, if any did: the retry succeeds exactly if one did and its reply was not lost. */
  lemma {:induction false} StampStoresTime(s: Server, k: Key, attempts: nat -> Attempt, i: nat)
    returns (landed: Option<nat>)
    requires k in s.generators && forall j: nat | j < RETRY_STEPS :: LeavesTime(attempts(j).foreign, k)
    ensures landed.Some? ==> i <= landed.value < RETRY_STEPS
    ensures var (s', err) := StampFrom(s, k, attempts, i);
            && k in s'.generators
            && s'.generators[k].lastPolled ==
                 (if landed.Some? then Stored(Some(attempts(landed.value).now)) else s.generators[k].lastPolled)
            && (!err <==> landed.Some? && !attempts(landed.value).send.ReplyLost?)
    decreases RETRY_STEPS - i
  {
    landed := None;
    if i < RETRY_STEPS {
      var a := attempts(i);
      var view := ViewedGenerator(s, k, a.read);
      if view.Some? {
        var s1 := ServeAll(s, a.foreign);
        ServeAllLeavesTime(s, a.foreign, k);
        if !a.send.NotSent? && view.value.version == s1.generators[k].version {
          landed := Some(i);
        } else if !a.send.NotSent? && !a.send.ReplyLost? {
          landed := StampStoresTime(s1, k, attempts, i + 1);
        }
      }
    }
  }

  /** The clock does not run backwards during the reconciliation, which is over at `done`. */
  predicate Ticks(world: World, done: int) {
    && world.now <= world.until <= done
    && forall i: nat | i < RETRY_STEPS :: world.now <= world.attempts(i).now <= done
  }

  /** Nobody else writes this generator's status while it is reconciled. */
  ghost predicate OwnsTime(world: World, k: Key) {
    && (world.listing.Some? ==> forall w | w in world.listing.value :: LeavesTime(w.env.foreign, k))
    && forall i: nat | i < RETRY_STEPS :: LeavesTime(world.attempts(i).foreign, k)
  }

  /**
   * Every reconciliation that reads the stored time is a legal visit of the poll schedule: it asks for the visit's
   * delay, fails exactly if the visit does, and leaves the visit's time stored.
   */
  lemma ReconciledIsAVisit(s: Server, g: Source, world: World, start: int, done: int) returns (v: Visit)
    requires g.key in s.generators && OwnsTime(world, g.key)
    requires start <= world.now && Ticks(world, done)
    ensures var last, interval := s.generators[g.key].lastPolled, Interval(g.spec.pollInterval);
            var (s', requeue, err) := Reconciled(s, g, last, world);
            && Legal(last, interval, start, v) && End(v) <= done && v.now == world.now
            && requeue == RequeueAfter(last, interval, v)
            && (err <==> Fails(v))
            && (v.Skip? ==> s' == s)
            && g.key in s'.generators && s'.generators[g.key].lastPolled == LastAfter(last, v)
  {
    var last, interval := s.generators[g.key].lastPolled, Interval(g.spec.pollInterval);
    if !GateOpen(last, interval, world.now) {
      v := Skip(world.now, world.until);
    } else if !MayPoll(g.key.namespace, g.spec.source, world) {
      v := Abandon(world.now);
    } else {
      var polled := Poll(s, g, world.listing.value);
      PollIsRequests(s, g, world.listing.value);
      PollLeavesTime(s, g, world.listing.value, g.key);
      ServeAllLeavesTime(s, PollRequests(s, g, world.listing.value), g.key);
      var landed := StampStoresTime(polled, g.key, world.attempts, 0);
      var err := StampFrom(polled, g.key, world.attempts, 0).1;
      if landed.None? {
        v := Abandon(world.now);
      } else {
        var stamp := world.attempts(landed.value).now;
        v := if err then Unanswered(world.now, stamp, stamp) else Complete(world.now, stamp, stamp);
      }
    }
  }

  /** A reconciliation of a generator, the server it finds and when it is over. */
  datatype Turn = Turn(server: Server, spec: GeneratorSpec, world: World, done: int)

  ghost function After(k: Key, t: Turn): (Server, int, bool)
    requires k in t.server.generators
  {
    Reconciled(t.server, Source(k, t.spec), t.server.generators[k].lastPolled, t.world)
  }

  /**
   * A generator's reconciliations at a fixed interval: each reads the time that the one before it left, and starts
   * when that one is over. Everything else may change in between.
   */
  ghost predicate Turns(k: Key, interval: int, start: int, turns: seq<Turn>)
    decreases turns
  {
    turns != [] ==>
      var t := turns[0];
      && k in t.server.generators && Interval(t.spec.pollInterval) == interval
      && start <= t.world.now && Ticks(t.world, t.done) && OwnsTime(t.world, k)
      && (|turns| > 1 ==>
            && k in turns[1].server.generators && k in After(k, t).0.generators
            && turns[1].server.generators[k].lastPolled == After(k, t).0.generators[k].lastPolled)
      && Turns(k, interval, t.done, turns[1..])
  }

  /** The visit says what the reconciliation asked for, whether it failed and what time it left stored. */
  ghost predicate Shows(k: Key, interval: int, t: Turn, v: Visit) {
    && k in t.server.generators
    && v.now == t.world.now
    && After(k, t).1 == RequeueAfter(t.server.generators[k].lastPolled, interval, v)
    && (After(k, t).2 <==> Fails(v))
    && k in After(k, t).0.generators
    && After(k, t).0.generators[k].lastPolled == LastAfter(t.server.generators[k].lastPolled, v)
    && (Stamped(v) ==> t.world.now <= v.stamp <= t.done)
  }

  lemma HistoryStartsEarlier(last: Option<int>, interval: int, earlier: int, start: int, visits: seq<Visit>)
    requires History(last, interval, start, visits) && earlier <= start
    ensures History(last, interval, earlier, visits)
  {
  }

  /** Whatever they run into, the controller's reconciliations of a generator are a history of the poll schedule. */
  lemma {:induction false} TurnsAreAHistory(k: Key, interval: int, start: int, turns: seq<Turn>)
    returns (visits: seq<Visit>)
    requires Turns(k, interval, start, turns)
    ensures |visits| == |turns|
    ensures turns != [] ==> k in turns[0].server.generators
    ensures History(if turns == [] then None else turns[0].server.generators[k].lastPolled, interval, start, visits)
    ensures forall i | 0 <= i < |turns| :: Shows(k, interval, turns[i], visits[i])
    decreases turns
  {
    visits := [];
    if turns != [] {
      var t := turns[0];
      var v := ReconciledIsAVisit(t.server, Source(k, t.spec), t.world, start, t.done);
      var rest := TurnsAreAHistory(k, interval, t.done, turns[1..]);
      if |turns| > 1 {
        assert turns[1..][0] == turns[1];
        HistoryStartsEarlier(turns[1].server.generators[k].lastPolled, interval, End(v), t.done, rest);
      }
      visits := [v] + rest;
      assert visits[1..] == rest;
      forall i | 0 <= i < |turns|
        ensures Shows(k, interval, turns[i], visits[i])
      {
        if i > 0 {
          assert turns[i] == turns[1..][i - 1] && visits[i] == rest[i - 1];
        }
      }
    }
  }

  /** So the polls of the controller itself keep their distance. */
  lemma ControllerPollsSpread(k: Key, interval: int, start: int, turns: seq<Turn>) returns (visits: seq<Visit>)
    requires Turns(k, interval, start, turns)
    ensures |visits| == |turns| && forall i | 0 <= i < |turns| :: Shows(k, interval, turns[i], visits[i])
    ensures var stamps := Stamps(visits);
            |stamps| >= 2 ==> stamps[|stamps| - 1] - stamps[0] > (|stamps| - 1) * (interval - SECOND)
  {
    visits := TurnsAreAHistory(k, interval, start, turns);
    if |Stamps(visits)| >= 2 {
      CompletedPollsSpread(turns[0].server.generators[k].lastPolled, interval, start, visits);
    }
  }

  // ------------------------------------------ reconciliations as runs of the system

  lemma {:induction false} ExternalsKeepStamps(s: System, rs: seq<Request>)
    ensures Exec(s, Externals(rs)).stamps == s.stamps
    decreases rs
  {
    if rs != [] {
      assert Externals(rs)[1..] == Externals(rs[1..]);
      ExternalsKeepStamps(Next(s, External(rs[0])), rs[1..]);
    }
  }

  /** One attempt to write the time, with the requests of others between its read and its write. */
  function AttemptSteps(id: nat, k: Key, view: Generator, a: Attempt): seq<Step> {
    [BeginStamp(id, k, view)] + (Externals(a.foreign) + if a.send.NotSent? then [] else [WriteStamp(id, a.now)])
  }

  lemma LastOfAttempt(s: System, id: nat, k: Key, view: Generator, a: Attempt)
    requires id in s.stamps && s.stamps[id] == StampRun(k, view)
    ensures Exec(s, if a.send.NotSent? then [] else [WriteStamp(id, a.now)]).server ==
              if a.send.NotSent? then s.server else UpdateGeneratorStatus(s.server, k,
                  view.(lastPolled := Some(a.now))).0
  {
    if !a.send.NotSent? {
      assert [WriteStamp(id, a.now)][1..] == [];
      assert Exec(s, [WriteStamp(id, a.now)]) == Exec(Next(s, WriteStamp(id, a.now)), []);
    }
  }

  lemma AttemptIsARun(s: System, id: nat, k: Key, view: Generator, a: Attempt)
    requires (k, view) in s.seenGenerators && ViewedGenerator(s.server, k, a.read) == Some(view)
    ensures Exec(s, AttemptSteps(id, k, view, a)).server == StampOnce(s.server, k, a).0
  {
    var begun := Next(s, BeginStamp(id, k, view));
    var rest := if a.send.NotSent? then [] else [WriteStamp(id, a.now)];
    assert AttemptSteps(id, k, view, a)[1..] == Externals(a.foreign) + rest;
    ExecConcat(begun, Externals(a.foreign), rest);
    ExternalsServeAll(begun, a.foreign);
    ExternalsKeepStamps(begun, a.foreign);
    LastOfAttempt(Exec(begun, Externals(a.foreign)), id, k, view, a);
  }

  /** The steps of the whole retry. */
  ghost function StampSteps(s: System, id: nat, k: Key, attempts: nat -> Attempt, i: nat): seq<Step>
    decreases RETRY_STEPS - i
  {
    if i >= RETRY_STEPS then []
    else
      var a := attempts(i);
      match ViewedGenerator(s.server, k, a.read)
      case None => []
      case Some(view) =>
        var steps := AttemptSteps(id, k, view, a);
        steps + if StampOnce(s.server, k, a).1.Conflicted?
                then StampSteps(Exec(s, steps), id, k, attempts, i + 1) else []
  }

  /** Every read returns a state that the generator had at some time. */
  ghost predicate ReadsSeen(s: System, id: nat, k: Key, attempts: nat -> Attempt, i: nat)
    decreases RETRY_STEPS - i
  {
    i < RETRY_STEPS ==>
      var a := attempts(i);
      match ViewedGenerator(s.server, k, a.read)
      case None => true
      case Some(view) =>
        && (k, view) in s.seenGenerators
        && (StampOnce(s.server, k, a).1.Conflicted? ==>
              ReadsSeen(Exec(s, AttemptSteps(id, k, view, a)), id, k, attempts, i + 1))
  }

  /** The retry is a run of the interleaved system. */
  lemma {:induction false} StampIsARun(s: System, id: nat, k: Key, attempts: nat -> Attempt, i: nat)
    requires ReadsSeen(s, id, k, attempts, i)
    ensures Exec(s, StampSteps(s, id, k, attempts, i)).server == StampFrom(s.server, k, attempts, i).0
    decreases RETRY_STEPS - i
  {
    if i < RETRY_STEPS {
      var a := attempts(i);
      var read := ViewedGenerator(s.server, k, a.read);
      if read.Some? {
        var steps := AttemptSteps(id, k, read.value, a);
        AttemptIsARun(s, id, k, read.value, a);
        if StampOnce(s.server, k, a).1.Conflicted? {
          StampIsARun(Exec(s, steps), id, k, attempts, i + 1);
          ExecConcat(s, steps, StampSteps(Exec(s, steps), id, k, attempts, i + 1));
        } else {
          assert steps + [] == steps;
        }
      }
    }
  }

  /** The requests of others that the attempts let through. */
  function ForeignOf(s: Server, k: Key, attempts: nat -> Attempt, i: nat): seq<Request>
    decreases RETRY_STEPS - i
  {
    if i >= RETRY_STEPS || ViewedGenerator(s, k, attempts(i).read).None? then []
    else
      var (s', outcome) := StampOnce(s, k, attempts(i));
      attempts(i).foreign + if outcome.Conflicted? then ForeignOf(s', k, attempts, i + 1) else []
  }

  /** A store and the same store with one generator's last-polled time set. */
  ghost predicate OnlyTimeDiffers(before: Server, after: Server, k: Key, attempts: nat -> Attempt) {
    || after == before
    || (&& k in before.generators
        && exists j: nat | j < RETRY_STEPS ::
             var g := before.generators[k].(version := before.clock + 1, lastPolled := Stored(Some(attempts(j).now)));
             after == before.(clock := before.clock + 1, generators := before.generators[k := g]))
  }

  lemma AttemptIsNarrow(s: System, id: nat, k: Key, view: Generator, attempts: nat -> Attempt, i: nat)
    requires Inv(s) && i < RETRY_STEPS
    requires (k, view) in s.seenGenerators && ViewedGenerator(s.server, k, attempts(i).read) == Some(view)
    ensures var before, (after, outcome) := ServeAll(s.server, attempts(i).foreign), StampOnce(s.server, k,
              attempts(i));
            && OnlyTimeDiffers(before, after, k, attempts)
            && (outcome.Conflicted? ==> after == before)
  {
    var a := attempts(i);
    var met := Exec(s, Externals(a.foreign));
    ExternalsServeAll(s, a.foreign);
    ReachableInv(s, Externals(a.foreign));
    ExternalsRemember(s, a.foreign);
    var before := met.server;
    if k in before.generators && view.version == before.generators[k].version {
      assert (k, before.generators[k]) in met.seenGenerators && (k, view) in met.seenGenerators;
      assert view == before.generators[k];
    }
  }

  lemma {:induction false} ExternalsRemember(s: System, rs: seq<Request>)
    ensures s.seenGenerators <= Exec(s, Externals(rs)).seenGenerators
    decreases rs
  {
    if rs != [] {
      assert Externals(rs)[1..] == Externals(rs[1..]);
      ExternalsRemember(Next(s, External(rs[0])), rs[1..]);
    }
  }

  /** What one attempt contributes to the retry, and to the requests of others. */
  lemma FirstAttempt(s: Server, k: Key, attempts: nat -> Attempt, i: nat)
    requires i < RETRY_STEPS && ViewedGenerator(s, k, attempts(i).read).Some?
    ensures var (s', outcome) := StampOnce(s, k, attempts(i));
            if outcome.Conflicted?
            then ForeignOf(s, k, attempts, i) == attempts(i).foreign + ForeignOf(s', k, attempts, i + 1)
                 && StampFrom(s, k, attempts, i) == StampFrom(s', k, attempts, i + 1)
            else ForeignOf(s, k, attempts, i) == attempts(i).foreign
                 && StampFrom(s, k, attempts, i).0 == s'
  {
    assert attempts(i).foreign + [] == attempts(i).foreign;
  }

  /** The retry as seen by the requests of others: what it leaves, against what they alone would leave. */
  ghost predicate LosesNothing(s: Server, k: Key, attempts: nat -> Attempt, i: nat) {
    OnlyTimeDiffers(ServeAll(s, ForeignOf(s, k, attempts, i)), StampFrom(s, k, attempts, i).0, k, attempts)
  }

  /** An attempt that conflicts hands on to the next, with the requests of others served. */
  lemma ConflictLosesNothing(s: Server, k: Key, attempts: nat -> Attempt, i: nat)
    requires i < RETRY_STEPS && ViewedGenerator(s, k, attempts(i).read).Some? &&
              StampOnce(s, k, attempts(i)).1.Conflicted?
    requires StampOnce(s, k, attempts(i)).0 == ServeAll(s, attempts(i).foreign)
    requires LosesNothing(ServeAll(s, attempts(i).foreign), k, attempts, i + 1)
    ensures LosesNothing(s, k, attempts, i)
  {
    var s' := ServeAll(s, attempts(i).foreign);
    FirstAttempt(s, k, attempts, i);
    ServeAllConcat(s, attempts(i).foreign, ForeignOf(s', k, attempts, i + 1));
  }

  /** An attempt that does not conflict is the last. */
  lemma LastLosesNothing(s: Server, k: Key, attempts: nat -> Attempt, i: nat)
    requires i < RETRY_STEPS && ViewedGenerator(s, k, attempts(i).read).Some? &&
              !StampOnce(s, k, attempts(i)).1.Conflicted?
    requires OnlyTimeDiffers(ServeAll(s, attempts(i).foreign), StampOnce(s, k, attempts(i)).0, k, attempts)
    ensures LosesNothing(s, k, attempts, i)
  {
    FirstAttempt(s, k, attempts, i);
  }

  lemma NoReadLosesNothing(s: Server, k: Key, attempts: nat -> Attempt, i: nat)
    requires i >= RETRY_STEPS || ViewedGenerator(s, k, attempts(i).read).None?
    ensures LosesNothing(s, k, attempts, i)
  {
  }

  lemma {:induction false} AttemptsLoseNothing(s: System, id: nat, k: Key, attempts: nat -> Attempt, i: nat)
    requires Inv(s) && ReadsSeen(s, id, k, attempts, i)
    ensures LosesNothing(s.server, k, attempts, i)
    decreases RETRY_STEPS - i
  {
    if i >= RETRY_STEPS || ViewedGenerator(s.server, k, attempts(i).read).None? {
      NoReadLosesNothing(s.server, k, attempts, i);
    } else {
      var view := ViewedGenerator(s.server, k, attempts(i).read).value;
      AttemptIsNarrow(s, id, k, view, attempts, i);
      if StampOnce(s.server, k, attempts(i)).1.Conflicted? {
        var steps := AttemptSteps(id, k, view, attempts(i));
        AttemptIsARun(s, id, k, view, attempts(i));
        ReachableInv(s, steps);
        AttemptsLoseNothing(Exec(s, steps), id, k, attempts, i + 1);
        ConflictLosesNothing(s.server, k, attempts, i);
      } else {
        LastLosesNothing(s.server, k, attempts, i);
      }
    }
  }

  /**
   * The last-polled write never loses a concurrent change: from any reachable state, whatever the attempts read and
   * whatever conflicts they run into, the whole retry leaves the store exactly as the requests of others alone would,
   * except for the last-polled time.
   */
  lemma RetryLosesNothing(s: System, id: nat, k: Key, attempts: nat -> Attempt)
    requires Reachable(s) && ReadsSeen(s, id, k, attempts, 0)
    ensures OnlyTimeDiffers(ServeAll(s.server, ForeignOf(s.server, k, attempts, 0)), StampFrom(s.server, k, attempts,
              0).0, k, attempts)
  {
    ReachableSatisfiesInv(s);
    AttemptsLoseNothing(s, id, k, attempts, 0);
  }

  /** The poll and the retry of a reconciliation that gets that far. */
  ghost function GeneratorSteps(s: System, id: nat, g: Source, world: World): seq<Step>
    requires world.listing.Some?
  {
    var polled := Externals(PollRequests(s.server, g, world.listing.value));
    polled + StampSteps(Exec(s, polled), id, g.key, world.attempts, 0)
  }

  /**
   * A reconciliation of a generator that passes its gate and may poll is a run of the interleaved system; any other
   * leaves the server alone.
   */
  lemma GeneratorReconcileIsARun(s: System, id: nat, g: Source, last: Option<int>, world: World)
    requires Inv(s)
    requires world.listing.Some? ==>
               ReadsSeen(Exec(s, Externals(PollRequests(s.server, g, world.listing.value))), id, g.key, world.attempts,
                   0)
    ensures var after := Reconciled(s.server, g, last, world).0;
            if GateOpen(last, Interval(g.spec.pollInterval), world.now)
               && MayPoll(g.key.namespace, g.spec.source, world)
            then Inv(Exec(s, GeneratorSteps(s, id, g, world))) &&
                Exec(s, GeneratorSteps(s, id, g, world)).server == after
            else after == s.server
  {
    if GateOpen(last, Interval(g.spec.pollInterval), world.now)
       && MayPoll(g.key.namespace, g.spec.source, world) {
      PollIsARun(s, g, world.listing.value);
      var polled := Externals(PollRequests(s.server, g, world.listing.value));
      var s1 := Exec(s, polled);
      StampIsARun(s1, id, g.key, world.attempts, 0);
      ExecConcat(s, polled, StampSteps(s1, id, g.key, world.attempts, 0));
      ReachableInv(s, GeneratorSteps(s, id, g, world));
    }
  }
}
