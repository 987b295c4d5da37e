/**
 * The run side of LFGDungeonQueue.java (class DungeonQueue): a permit counter
 * standing for the semaphore of size maxInstances, the map of active dungeon
 * ids to remaining seconds, and the two pool-wide counters. One run of
 * runDungeon is a sequence of atomic steps: acquire, draw, activate, tick,
 * complete, release; an interruption cuts the sequence short.
 */
module DungeonRuns {
  import opened Common
  import opened PartyMatchmaking

  /** Where, if anywhere, the thread of a run is interrupted. */
  datatype Interruption = Never | InAcquire | InSleep(tick: nat)

  /** How one attempt to take a permit ends. */
  datatype Admission = Admitted | MustWait | AcquireInterrupted

  /**
   * How a run ends: it completed, it was interrupted, it is still waiting for
   * a permit, or the duration range was empty so the random draw threw.
   */
  datatype Outcome = Completed | Interrupted | StillWaiting | RangeRejected

  /** The remaining times a run shows from activation on: duration, duration - 1, ..., 0. */
  function Countdown(duration: int): seq<int>
  {
    seq(Max(duration, 0) + 1, k => duration - k)
  }

  class DungeonQueue {
    const maxInstances: int
    const t1: int
    const t2: int
    /** Free permits of the semaphore. */
    var permits: int
    /** Permits currently taken by runs. */
    ghost var held: nat
    var activeDungeons: map<int, int>
    var totalPartiesServed: int
    var totalTimeServed: int

    /**
     * Every permit is either free or held by a run, and a run holds a permit
     * only while the count of free ones is not negative: so free permits never
     * exceed the capacity, nor do the runs holding one.
     */
    ghost predicate Valid()
      reads this
    {
      && permits + held == maxInstances
      && (held > 0 ==> permits >= 0)
    }

    constructor (maxInstances: int, t1: int, t2: int)
      ensures Valid() && held == 0 && permits == maxInstances
      ensures this.maxInstances == maxInstances && this.t1 == t1 && this.t2 == t2
      ensures activeDungeons == map[] && totalPartiesServed == 0 && totalTimeServed == 0
    {
      this.maxInstances, this.t1, this.t2 := maxInstances, t1, t2;
      permits := maxInstances;
      held := 0;
      activeDungeons := map[];
      totalPartiesServed, totalTimeServed := 0, 0;
    }

    /**
     * One attempt at the semaphore's acquire: an interrupted thread is refused
     * whatever the count; otherwise a free permit is taken, or the run must wait.
     */
    method Acquire(interrupted: bool) returns (a: Admission)
      modifies this`permits, this`held
      ensures old(Valid()) ==> Valid() && held <= Max(maxInstances, 0)
      ensures a == (if interrupted then AcquireInterrupted else if old(permits) >= 1 then Admitted else MustWait)
      ensures permits == old(permits) - (if a == Admitted then 1 else 0)
      ensures held == old(held) + (if a == Admitted then 1 else 0)
    {
      if interrupted {
        a := AcquireInterrupted;
      } else if permits >= 1 {
        permits := permits - 1;
        held := held + 1;
        a := Admitted;
      } else {
        a := MustWait;
      }
    }

    /**
     * The random duration: uniform in [t1, t2], here any value of that range;
     * an empty range makes the draw throw, which is None.
     */
    method DrawDuration() returns (d: Option<int>)
      ensures d.None? <==> t2 < t1
      ensures d.Some? ==> t1 <= d.value <= t2
    {
      if t2 - t1 + 1 <= 0 {
        d := None;
      } else {
        var x :| t1 <= x <= t2;
        d := Some(x);
      }
    }

    /** The dungeon id starts out with its whole duration remaining. */
    method Activate(dungeonId: int, duration: int)
      modifies this`activeDungeons
      ensures activeDungeons == old(activeDungeons)[dungeonId := duration]
    {
      activeDungeons := activeDungeons[dungeonId := duration];
    }

    /** After the i-th one-second sleep the entry shows duration - i - 1 seconds left. */
    method Tick(dungeonId: int, duration: int, i: int)
      modifies this`activeDungeons
      ensures activeDungeons == old(activeDungeons)[dungeonId := duration - i - 1]
    {
      activeDungeons := activeDungeons[dungeonId := duration - i - 1];
    }

    /** Normal completion: the entry goes and the run is credited once, with its whole duration. */
    method Complete(dungeonId: int, duration: int)
      modifies this`activeDungeons, this`totalPartiesServed, this`totalTimeServed
      ensures activeDungeons == old(activeDungeons) - {dungeonId}
      ensures totalPartiesServed == old(totalPartiesServed) + 1
      ensures totalTimeServed == old(totalTimeServed) + duration
    {
      activeDungeons := activeDungeons - {dungeonId};
      totalPartiesServed := totalPartiesServed + 1;
      totalTimeServed := totalTimeServed + duration;
    }

    /** The `finally` release, giving back a permit only when one was taken. */
    method Release(admitted: bool)
      requires Valid()
      requires admitted ==> held >= 1
      modifies this`permits, this`held
      ensures Valid()
      ensures permits == old(permits) + (if admitted then 1 else 0)
      ensures held == old(held) - (if admitted then 1 else 0)
    {
      if admitted {
        permits := permits + 1;
        held := held - 1;
      }
    }

    /** The `finally` release as the source writes it: a permit is returned on every path. */
    method ReleaseAsWritten()
      modifies this`permits
      ensures permits == old(permits) + 1
    {
      permits := permits + 1;
    }

    /**
     * One run of runDungeon for `dungeonId`, uncontended: take a permit, draw
     * a duration, count it down tick by tick, then remove the entry and credit
     * the run. `shown` lists the remaining times put in the map, in order.
     * Only a completed run is credited; an interrupted sleep leaves its entry
     * behind; every path that took a permit gives it back.
     */
    method RunDungeon(dungeonId: int, interruption: Interruption)
      returns (outcome: Outcome, duration: int, shown: seq<int>)
      requires Valid()
      modifies this`permits, this`held, this`activeDungeons, this`totalPartiesServed, this`totalTimeServed
      ensures Valid() && permits == old(permits) && held == old(held)
      ensures outcome == StillWaiting <==> interruption != InAcquire && old(permits) < 1
      ensures outcome == RangeRejected <==> interruption != InAcquire && old(permits) >= 1 && t2 < t1
      ensures outcome == Completed <==>
        interruption != InAcquire && old(permits) >= 1 && t1 <= t2 &&
        !(interruption.InSleep? && interruption.tick < duration)
      ensures outcome == Completed || (outcome == Interrupted && interruption != InAcquire) ==>
        t1 <= duration <= t2
      ensures outcome == Completed ==>
        && activeDungeons == old(activeDungeons) - {dungeonId}
        && totalPartiesServed == old(totalPartiesServed) + 1
        && totalTimeServed == old(totalTimeServed) + duration
        && shown == Countdown(duration)
      ensures outcome != Completed ==>
        totalPartiesServed == old(totalPartiesServed) && totalTimeServed == old(totalTimeServed)
      ensures outcome == Interrupted && interruption.InSleep? ==>
        && interruption.tick < duration
        && activeDungeons == old(activeDungeons)[dungeonId := duration - interruption.tick]
        && shown == Countdown(duration)[..interruption.tick + 1]
      ensures outcome == StillWaiting || outcome == RangeRejected || interruption == InAcquire ==>
        activeDungeons == old(activeDungeons) && shown == []
    {
      shown := [];
      duration := 0;
      var admission := Acquire(interruption == InAcquire);
      if admission == MustWait {
        outcome := StillWaiting;
        return;
      }
      if admission == AcquireInterrupted {
        Release(false);
        outcome := Interrupted;
        return;
      }
      var drawn := DrawDuration();
      if drawn.None? {
        Release(true);
        outcome := RangeRejected;
        return;
      }
      duration := drawn.value;
      Activate(dungeonId, duration);
      shown := [activeDungeons[dungeonId]];
      var i := 0;
      while i < duration
        invariant 0 <= i <= Max(duration, 0)
        invariant activeDungeons == old(activeDungeons)[dungeonId := duration - i]
        invariant shown == Countdown(duration)[..i + 1]
        invariant Valid() && permits == old(permits) - 1 && held == old(held) + 1
        invariant totalPartiesServed == old(totalPartiesServed) && totalTimeServed == old(totalTimeServed)
        invariant interruption.InSleep? ==> interruption.tick >= i
      {
        if interruption == InSleep(i) {
          Release(true);
          outcome := Interrupted;
          return;
        }
        Tick(dungeonId, duration, i);
        shown := shown + [activeDungeons[dungeonId]];
        i := i + 1;
      }
      Complete(dungeonId, duration);
      Release(true);
      outcome := Completed;
    }

    /**
     * The runs formAndRunParties starts, one after another and never
     * interrupted. With a non-empty range every party is served, each for a
     * duration in [t1, t2]; the counters grow by the number of parties and the
     * sum of durations, and every run's entry is gone afterwards. With t2 < t1
     * every run's draw throws: nothing is credited and the map is unchanged.
     * `durations` lists the durations of the completed runs.
     */
    method ServeInOrder(parties: seq<Party>) returns (durations: seq<int>)
      requires Valid() && (parties != [] ==> permits >= 1)
      modifies this`permits, this`held, this`activeDungeons, this`totalPartiesServed, this`totalTimeServed
      ensures Valid() && permits == old(permits) && held == old(held)
      ensures |durations| == (if t1 <= t2 then |parties| else 0)
      ensures forall j :: 0 <= j < |durations| ==> t1 <= durations[j] <= t2
      ensures totalPartiesServed == old(totalPartiesServed) + |durations|
      ensures totalTimeServed == old(totalTimeServed) + Sum(durations)
      ensures |durations| * t1 <= totalTimeServed - old(totalTimeServed) <= |durations| * t2
      ensures t1 <= t2 ==>
        activeDungeons == old(activeDungeons) - (set j | 0 <= j < |parties| :: parties[j].dungeonId)
      ensures t2 < t1 ==> activeDungeons == old(activeDungeons)
    {
      durations := [];
      var k := 0;
      while k < |parties|
        invariant 0 <= k <= |parties| && |durations| == (if t1 <= t2 then k else 0)
        invariant Valid() && permits == old(permits) && held == old(held)
        invariant forall j :: 0 <= j < |durations| ==> t1 <= durations[j] <= t2
        invariant totalPartiesServed == old(totalPartiesServed) + |durations|
        invariant totalTimeServed == old(totalTimeServed) + Sum(durations)
        invariant t1 <= t2 ==>
          activeDungeons == old(activeDungeons) - (set j | 0 <= j < k :: parties[j].dungeonId)
        invariant t2 < t1 ==> activeDungeons == old(activeDungeons)
      {
        var outcome, duration, shown := RunDungeon(parties[k].dungeonId, Never);
        if outcome == Completed {
          assert (durations + [duration])[..|durations|] == durations;
          durations := durations + [duration];
        }
        k := k + 1;
      }
      SumBounds(durations, t1, t2);
    }
  }

  /** No more runs hold a permit than the semaphore was created with. */
  lemma CapacityBound(q: DungeonQueue)
    requires q.Valid()
    ensures q.held <= Max(q.maxInstances, 0)
    ensures q.permits <= Max(q.maxInstances, 0)
  {
  }

  /**
   * formAndRunParties: form every party the queues allow, then run each
   * party's dungeon and wait for all of them. The runs are taken one after
   * another. Every party formed is served when the duration range is
   * non-empty, and none when it is empty.
   */
  method FormAndRunParties(lfg: LfgQueue, dq: DungeonQueue) returns (parties: seq<Party>, durations: seq<int>)
    requires dq.Valid() && (CanForm(lfg.Waiting()) ==> dq.permits >= 1)
    modifies lfg, dq
    ensures (parties, lfg.Waiting()) == Matchmake(old(lfg.Waiting()), old(lfg.partyCounter), 0)
    ensures |parties| == Rounds(|old(lfg.tanks)|, |old(lfg.healers)|, |old(lfg.dps)|)
    ensures !CanForm(lfg.Waiting())
    ensures dq.Valid() && dq.permits == old(dq.permits)
    ensures |durations| == (if dq.t1 <= dq.t2 then |parties| else 0)
    ensures forall j :: 0 <= j < |durations| ==> dq.t1 <= durations[j] <= dq.t2
    ensures dq.totalPartiesServed == old(dq.totalPartiesServed) + |durations|
    ensures dq.totalTimeServed == old(dq.totalTimeServed) + Sum(durations)
    ensures |durations| * dq.t1 <= dq.totalTimeServed - old(dq.totalTimeServed) <= |durations| * dq.t2
    ensures lfg.partyCounter == old(lfg.partyCounter) + |parties|
    ensures dq.t1 <= dq.t2 ==>
      dq.activeDungeons == old(dq.activeDungeons) - (set j | 0 <= j < |parties| :: parties[j].dungeonId)
    ensures dq.t2 < dq.t1 ==> dq.activeDungeons == old(dq.activeDungeons)
  {
    MatchmakeFifo(lfg.Waiting(), lfg.partyCounter, 0);
    parties := lfg.FormParties();
    durations := dq.ServeInOrder(parties);
  }

  /**
   * The entry point of LFGDungeonQueue.java with its six inputs: n instances,
   * t tanks, h healers, d DPS and durations in [t1, t2]. Exactly
   * min(T, H, D div 3) parties are formed; all of them are served when
   * t1 <= t2, with a total time between parties * t1 and parties * t2, and
   * none when t2 < t1. The leftover queues cannot form another party.
   */
  method RunQueueProgram(n: int, t: int, h: int, d: int, t1: int, t2: int)
    returns (parties: seq<Party>, left: Queues, durations: seq<int>, served: int, timeServed: int)
    requires n >= 1 || Min3(Max(t, 0), Max(h, 0), Max(d, 0) / 3) == 0
    ensures |parties| == Min3(Max(t, 0), Max(h, 0), Max(d, 0) / 3)
    ensures !CanForm(left)
    ensures served == (if t1 <= t2 then |parties| else 0)
    ensures |durations| == served && timeServed == Sum(durations)
    ensures forall j :: 0 <= j < |durations| ==> t1 <= durations[j] <= t2
    ensures t1 <= t2 ==> |parties| * t1 <= timeServed <= |parties| * t2
    ensures t2 < t1 ==> timeServed == 0
  {
    var dq := new DungeonQueue(n, t1, t2);
    var lfg := FilledQueue(t, h, d);
    RoundsIsMin(Max(t, 0), Max(h, 0), Max(d, 0));
    parties, durations := FormAndRunParties(lfg, dq);
    left := lfg.Waiting();
    served, timeServed := dq.totalPartiesServed, dq.totalTimeServed;
  }

  /**
   * The as-written `finally` after an interrupted acquire: on a queue of
   * capacity 1, nothing was taken, yet a permit is returned, leaving two free
   * permits, more than the capacity. Two later runs are then both admitted,
   * so two runs hold a permit of a semaphore of size 1.
   */
  method OverReleaseWitness() returns (q: DungeonQueue, freed: int, first: Admission, second: Admission)
    ensures q.maxInstances == 1 && freed == 2
    ensures first == Admitted && second == Admitted
    ensures q.held == 2 && q.held > q.maxInstances && !q.Valid()
  {
    q := new DungeonQueue(1, 1, 1);
    var interrupted := q.Acquire(true);
    q.ReleaseAsWritten();
    freed := q.permits;
    first := q.Acquire(false);
    second := q.Acquire(false);
  }
}
