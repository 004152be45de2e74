/** The poll clock of a generator: its gate, its requeue delays, and what they guarantee over whole runs. */
module Schedule {
  import opened Wrappers
  import opened Clock

  function Interval(configured: Option<int>): int {
    match configured case None => DEFAULT_POLL_INTERVAL case Some(i) => i
  }

  /** A poll may start unless the clock is before the stored last poll plus the interval. */
  predicate GateOpen(last: Option<int>, interval: int, now: int) {
    last.Some? ==> now >= last.value + interval
  }

  /**
   * What one reconciliation does, in the order of its clock readings. Abandoned visits fail and leave the stored time;
   * Unanswered ones fail as well, but only because the reply to the write of the time was lost.
   */
  datatype Visit =
    | Skip(now: int, until: int)
    | Abandon(now: int)
    | Complete(now: int, stamp: int, end: int)
    | Unanswered(now: int, stamp: int, end: int)

  predicate Stamped(v: Visit) {
    v.Complete? || v.Unanswered?
  }

  predicate Fails(v: Visit) {
    v.Abandon? || v.Unanswered?
  }

  function End(v: Visit): int {
    match v
    case Skip(_, until) => until
    case Abandon(now) => now
    case Complete(_, _, end) => end
    case Unanswered(_, _, end) => end
  }

  function LastAfter(last: Option<int>, v: Visit): Option<int> {
    if Stamped(v) then Some(WholeSeconds(v.stamp)) else last
  }

  /** The gate decides between skipping and polling, and the clock never runs backwards. */
  predicate Legal(last: Option<int>, interval: int, start: int, v: Visit) {
    && start <= v.now
    && (v.Skip? <==> !GateOpen(last, interval, v.now))
    && (v.Skip? ==> v.now <= v.until)
    && (Stamped(v) ==> v.now <= v.stamp <= v.end)
  }

  /** A run of reconciliations of one generator, each reading the time that the one before it left stored. */
  predicate History(last: Option<int>, interval: int, start: int, visits: seq<Visit>)
    decreases visits
  {
    visits != [] ==>
      && Legal(last, interval, start, visits[0])
      && History(LastAfter(last, visits[0]), interval, End(visits[0]), visits[1..])
  }

  /** The stamps of the polls that stored one, in order. */
  function Stamps(visits: seq<Visit>): seq<int> {
    if visits == [] then []
    else (if Stamped(visits[0]) then [visits[0].stamp] else []) + Stamps(visits[1..])
  }

  lemma {:induction false} StampAfterGate(last: int, interval: int, start: int, visits: seq<Visit>)
    requires History(Some(last), interval, start, visits) && Stamps(visits) != []
    ensures Stamps(visits)[0] >= last + interval
    decreases visits
  {
    if !Stamped(visits[0]) {
      StampAfterGate(last, interval, End(visits[0]), visits[1..]);
    }
  }

  /**
   * Polls that stored their time are never closer than the interval less the fraction of a second that storing loses.
   */
  lemma {:induction false} CompletedPollsSpread(last: Option<int>, interval: int, start: int, visits: seq<Visit>)
    requires History(last, interval, start, visits) && |Stamps(visits)| >= 2
    ensures var stamps := Stamps(visits);
            stamps[|stamps| - 1] - stamps[0] > (|stamps| - 1) * (interval - SECOND)
    decreases visits
  {
    var v, rest := visits[0], visits[1..];
    var stamps, later := Stamps(visits), Stamps(rest);
    if !Stamped(v) {
      CompletedPollsSpread(last, interval, End(v), rest);
    } else {
      assert stamps == [v.stamp] + later;
      StampAfterGate(WholeSeconds(v.stamp), interval, End(v), rest);
      assert later[0] - v.stamp > interval - SECOND;
      if |later| >= 2 {
        CompletedPollsSpread(Some(WholeSeconds(v.stamp)), interval, End(v), rest);
        var n := |later| - 1;
        assert (n + 1) * (interval - SECOND) == n * (interval - SECOND) + (interval - SECOND);
      }
    }
  }

  /**
   * "At least the interval apart" is false: the gate measures from the stored stamp, not from the stamp. It holds for
   * every next poll exactly if the stamp fell on a whole second.
   */
  lemma IntervalKeptExactly(stamp: int, interval: int)
    ensures (forall now | GateOpen(Stored(Some(stamp)), interval, now) :: now - stamp >= interval) <==>
              stamp % SECOND == 0
  {
    assert GateOpen(Stored(Some(stamp)), interval, WholeSeconds(stamp) + interval);
  }

  lemma EarlySecondPoll()
    ensures var visits := [Complete(0, SECOND - 1, SECOND - 1), Complete(300 * SECOND, 300 * SECOND, 300 * SECOND)];
            && History(None, DEFAULT_POLL_INTERVAL, 0, visits)
            && |Stamps(visits)| == 2 && Stamps(visits)[1] - Stamps(visits)[0] < DEFAULT_POLL_INTERVAL
  {
    var first, second := Complete(0, SECOND - 1, SECOND - 1), Complete(300 * SECOND, 300 * SECOND, 300 * SECOND);
    var visits := [first, second];
    assert WholeSeconds(SECOND - 1) == 0;
    assert visits[1..] == [second] && [second][1..] == [];
    assert Stamps([second]) == [second.stamp] + Stamps([]);
    assert Stamps(visits) == [first.stamp] + Stamps([second]);
    assert History(Some(WholeSeconds(second.stamp)), DEFAULT_POLL_INTERVAL, End(second), []);
    assert History(Some(0), DEFAULT_POLL_INTERVAL, End(first), [second]);
  }

  /** The delay a reconciliation asks for; the controller runtime schedules a wake-up only for a positive one. */
  function RequeueAfter(last: Option<int>, interval: int, v: Visit): int {
    match v
    case Skip(_, until) => (if last.Some? then last.value + interval - until else 0)
    case Complete(_, _, _) => interval
    case _ => 0
  }

  /**
   * A wake-up never meets a closed gate: after a skip it comes exactly at the next poll time, after a poll no earlier.
   */
  lemma WakesIntoOpenGate(last: Option<int>, interval: int, start: int, v: Visit, now: int)
    requires Legal(last, interval, start, v) && !Fails(v)
    requires now >= End(v) + RequeueAfter(last, interval, v)
    ensures GateOpen(LastAfter(last, v), interval, now)
    ensures v.Skip? ==> End(v) + RequeueAfter(last, interval, v) == last.value + interval
  {
  }

  /** Every visit but the first is the wake-up the one before it asked for. */
  predicate WakeDriven(last: Option<int>, interval: int, visits: seq<Visit>)
    decreases visits
  {
    |visits| >= 2 ==>
      && visits[1].now >= End(visits[0]) + RequeueAfter(last, interval, visits[0])
      && WakeDriven(LastAfter(last, visits[0]), interval, visits[1..])
  }

  /** In a run that lives on its own wake-ups no skip follows a skip or a successful poll. */
  lemma {:induction false} WakeUpsNeverSkip(last: Option<int>, interval: int, start: int, visits: seq<Visit>, i: nat)
    requires History(last, interval, start, visits) && WakeDriven(last, interval, visits)
    requires i + 1 < |visits| && !Fails(visits[i])
    ensures !visits[i + 1].Skip?
    decreases visits
  {
    var v, rest := visits[0], visits[1..];
    if i == 0 {
      WakesIntoOpenGate(last, interval, start, v, rest[0].now);
    } else {
      assert rest[i - 1] == visits[i] && rest[i] == visits[i + 1];
      WakeUpsNeverSkip(LastAfter(last, v), interval, End(v), rest, i - 1);
    }
  }

  /**
   * But a skip does not always schedule one, since it reads the clock twice: if up to `lag` can pass between the two
   * readings, every skip schedules a wake-up exactly if the first reading is more than that before the next poll time.
   */
  lemma SkipSchedulesExactly(last: int, interval: int, now: int, lag: nat)
    ensures (forall until | now <= until <= now + lag :: RequeueAfter(Some(last), interval, Skip(now, until)) > 0)
            <==> now + lag < last + interval
  {
    assert RequeueAfter(Some(last), interval, Skip(now, now + lag)) == last + interval - (now + lag);
  }

  lemma SkipWithoutWakeUp()
    ensures var last, interval := Some(0), DEFAULT_POLL_INTERVAL;
            var v := Skip(interval - 1, interval);
            Legal(last, interval, 0, v) && RequeueAfter(last, interval, v) <= 0
  {
  }
}
