/**
 * LFG.java: dungeons that credit a party on entry, the parameter checks of
 * the entry point, the counter-based party loop that names the
 * highest-numbered remaining players, and the choice of the first inactive
 * dungeon in a shuffled list.
 */
module Lfg {
  import opened Common
  import opened Labels

  /** One dungeon instance, numbered from 1, with its own counters. */
  class Dungeon {
    const id: int
    var partiesServed: int
    var totalTimeServed: int
    var isActive: bool
    var currentParty: string

    constructor (id: int)
      ensures this.id == id && partiesServed == 0 && totalTimeServed == 0
      ensures !isActive && currentParty == "None"
    {
      this.id := id;
      partiesServed, totalTimeServed := 0, 0;
      isActive, currentParty := false, "None";
    }

    /** The first half of enterDungeon: occupy the dungeon and credit the party before any waiting. */
    method Enter(party: string, time: int)
      modifies this
      ensures isActive && currentParty == party
      ensures partiesServed == old(partiesServed) + 1
      ensures totalTimeServed == old(totalTimeServed) + time
    {
      isActive := true;
      currentParty := party;
      partiesServed := partiesServed + 1;
      totalTimeServed := totalTimeServed + time;
    }

    /** The second half of enterDungeon: clear the occupancy; the counters stay. */
    method Leave()
      modifies this
      ensures !isActive && currentParty == "None"
      ensures partiesServed == old(partiesServed) && totalTimeServed == old(totalTimeServed)
    {
      isActive := false;
      currentParty := "None";
    }

    /**
     * enterDungeon as one call: credit on entry, wait `time` seconds, leave.
     * An interrupted wait changes nothing; a negative time makes the sleep
     * throw before the occupancy is cleared, which is `left == false`.
     * The counters never go down for a non-negative time.
     */
    method EnterDungeon(party: string, time: int) returns (left: bool)
      modifies this
      ensures partiesServed == old(partiesServed) + 1
      ensures totalTimeServed == old(totalTimeServed) + time
      ensures time >= 0 ==> old(totalTimeServed) <= totalTimeServed
      ensures left <==> time >= 0
      ensures left ==> !isActive && currentParty == "None"
      ensures !left ==> isActive && currentParty == party
    {
      Enter(party, time);
      if time < 0 {
        left := false;
        return;
      }
      Leave();
      left := true;
    }
  }

  /** The six integers the entry point asks for. */
  datatype Config = Config(n: int, tanks: int, healers: int, dps: int, minTime: int, maxTime: int)

  /** The checks each prompt repeats until it holds. */
  predicate ValidInstances(n: int) { !(n < 1) }

  predicate ValidPlayers(count: int) { !(count < 0) }

  predicate ValidMinTime(t1: int) { !(t1 < 1) }

  predicate ValidMaxTime(t1: int, t2: int) { !(t2 < t1 || t2 > 15) }

  /**
   * A configuration the entry point accepts. The random draw over it can
   * never be given an empty range, and every duration is between 1 and 15.
   */
  predicate ValidConfig(c: Config)
    ensures ValidConfig(c) ==> 1 <= c.maxTime - c.minTime + 1 <= 15
    ensures ValidConfig(c) ==> 1 <= c.minTime <= c.maxTime <= 15
    ensures ValidConfig(c) ==> c.n >= 1 && c.tanks >= 0 && c.healers >= 0 && c.dps >= 0
  {
    && ValidInstances(c.n)
    && ValidPlayers(c.tanks)
    && ValidPlayers(c.healers)
    && ValidPlayers(c.dps)
    && ValidMinTime(c.minTime)
    && ValidMaxTime(c.minTime, c.maxTime)
  }

  /** The party text for counters t, h, d: the tank and healer numbered t and h, and DPS d-2, d-1, d. */
  function PartyLabel(t: nat, h: nat, d: nat): string
    requires d >= 2
  {
    Label("Tank", t) + ", " + Label("Healer", h) + ", " +
    Label("DPS", d - 2) + ", " + Label("DPS", d - 1) + ", " + Label("DPS", d)
  }

  /** One formed party: its text, its drawn duration and the dungeon it was handed to, if any. */
  datatype Submission = Submission(party: string, time: int, target: Option<Dungeon>)

  /** Every dungeon of the list is occupied. */
  predicate AllActive(dungeons: seq<Dungeon>)
    reads dungeons
  {
    forall x :: x in dungeons ==> x.isActive
  }

  /**
   * A party is handed to nobody exactly when every dungeon is occupied, and
   * otherwise to an idle dungeon of the list.
   */
  predicate HandedOver(s: Submission, dungeons: seq<Dungeon>)
    reads dungeons
  {
    && (s.target.None? <==> AllActive(dungeons))
    && (s.target.Some? ==> s.target.value in dungeons && !s.target.value.isActive)
  }

  /**
   * The j-th party of the loop started from counters t0, h0, d0: it names
   * the players numbered t0 - j, h0 - j and d0 - 3j - 2 .. d0 - 3j, the
   * highest-numbered ones still waiting; its duration is in [t1, t2]; and it
   * is handed over as HandedOver says.
   */
  predicate FormedAs(s: Submission, j: int, t0: int, h0: int, d0: int, t1: int, t2: int, dungeons: seq<Dungeon>)
    reads dungeons
  {
    && t0 - j >= 1 && h0 - j >= 1 && d0 - 3 * j >= 3
    && s.party == PartyLabel(t0 - j, h0 - j, d0 - 3 * j)
    && t1 <= s.time <= t2
    && HandedOver(s, dungeons)
  }

  /**
   * Shuffle the dungeon list (any permutation) and take the first inactive
   * dungeon of the new order, or none when all are active.
   */
  method ShuffleAndPick(order: seq<Dungeon>) returns (shuffled: seq<Dungeon>, pick: Option<nat>)
    ensures multiset(shuffled) == multiset(order)
    ensures pick.None? ==> forall x :: x in shuffled ==> x.isActive
    ensures pick.Some? ==>
      && pick.value < |shuffled|
      && !shuffled[pick.value].isActive
      && forall m :: 0 <= m < pick.value ==> shuffled[m].isActive
  {
    shuffled :| multiset(shuffled) == multiset(order);
    pick := None;
    var i := 0;
    while i < |shuffled|
      invariant 0 <= i <= |shuffled|
      invariant forall m :: 0 <= m < i ==> shuffled[m].isActive
    {
      if !shuffled[i].isActive {
        pick := Some(i);
        return;
      }
      i := i + 1;
    }
  }

  /**
   * One pass of the party loop's body for counters t, h, d: draw a duration
   * in [t1, t2], name the party, shuffle the list and hand the party to the
   * first idle dungeon, if any.
   */
  method FormParty(order: seq<Dungeon>, dungeons: seq<Dungeon>, t: int, h: int, d: int, t1: int, t2: int)
    returns (shuffled: seq<Dungeon>, s: Submission)
    requires t >= 1 && h >= 1 && d >= 3 && t1 <= t2
    requires multiset(order) == multiset(dungeons)
    ensures multiset(shuffled) == multiset(dungeons)
    ensures s.party == PartyLabel(t, h, d) && t1 <= s.time <= t2
    ensures HandedOver(s, dungeons)
  {
    var time :| t1 <= time <= t2;
    var party := PartyLabel(t, h, d);
    var pick;
    shuffled, pick := ShuffleAndPick(order);
    var target := if pick.Some? then Some(shuffled[pick.value]) else None;
    s := Submission(party, time, target);
    PickIsHandedOver(dungeons, shuffled, pick, s);
  }

  /**
   * The party loop of the entry point. While t >= 1, h >= 1 and d >= 3 it
   * draws a duration in [t1, t2], names the party after the highest-numbered
   * remaining players (the last ones of each role), takes 1, 1 and 3 off the
   * counters, and hands the party to the first inactive dungeon of a freshly
   * shuffled list. A submitted run may start at once, but enterDungeon holds
   * the dungeon's monitor for its whole stay and isActive waits for that
   * monitor, so the loop only ever sees a dungeon between runs, idle: the
   * dungeons' state is the same at every check. It loops
   * min(t0, h0, d0 div 3) times, and the counters it leaves are the
   * leftover players.
   */
  method ProcessParties(dungeons: seq<Dungeon>, t0: int, h0: int, d0: int, t1: int, t2: int)
    returns (order: seq<Dungeon>, subs: seq<Submission>, t: int, h: int, d: int)
    requires t1 <= t2
    ensures multiset(order) == multiset(dungeons)
    ensures |subs| == Rounds(t0, h0, d0)
    ensures t == t0 - |subs| && h == h0 - |subs| && d == d0 - 3 * |subs|
    ensures !(t >= 1 && h >= 1 && d >= 3)
    ensures forall j :: 0 <= j < |subs| ==> FormedAs(subs[j], j, t0, h0, d0, t1, t2, dungeons)
  {
    order := dungeons;
    subs := [];
    t, h, d := t0, h0, d0;
    while t >= 1 && h >= 1 && d >= 3
      invariant multiset(order) == multiset(dungeons)
      invariant t == t0 - |subs| && h == h0 - |subs| && d == d0 - 3 * |subs|
      invariant Rounds(t0, h0, d0) == |subs| + Rounds(t, h, d)
      invariant forall j :: 0 <= j < |subs| ==> FormedAs(subs[j], j, t0, h0, d0, t1, t2, dungeons)
      decreases t
    {
      var submission;
      order, submission := FormParty(order, dungeons, t, h, d, t1, t2);
      t, h, d := t - 1, h - 1, d - 3;
      FormedAppend(subs, submission, t0, h0, d0, t1, t2, dungeons);
      subs := subs + [submission];
    }
  }

  /** Appending the next formed party keeps every party formed as the loop says. */
  lemma FormedAppend(subs: seq<Submission>, s: Submission, t0: int, h0: int, d0: int, t1: int, t2: int, dungeons: seq<Dungeon>)
    requires forall j :: 0 <= j < |subs| ==> FormedAs(subs[j], j, t0, h0, d0, t1, t2, dungeons)
    requires FormedAs(s, |subs|, t0, h0, d0, t1, t2, dungeons)
    ensures forall j :: 0 <= j < |subs + [s]| ==> FormedAs((subs + [s])[j], j, t0, h0, d0, t1, t2, dungeons)
  {
    forall j | 0 <= j < |subs + [s]|
      ensures FormedAs((subs + [s])[j], j, t0, h0, d0, t1, t2, dungeons)
    {
      if j < |subs| {
        assert (subs + [s])[j] == subs[j];
      }
    }
  }

  /** The pick of ShuffleAndPick over a permutation of `dungeons` hands the party over as intended. */
  lemma PickIsHandedOver(dungeons: seq<Dungeon>, shuffled: seq<Dungeon>, pick: Option<nat>, s: Submission)
    requires multiset(shuffled) == multiset(dungeons)
    requires pick.None? ==> forall x :: x in shuffled ==> x.isActive
    requires pick.Some? ==> pick.value < |shuffled| && !shuffled[pick.value].isActive
    requires s.target == if pick.Some? then Some(shuffled[pick.value]) else None
    ensures HandedOver(s, dungeons)
  {
    if pick.Some? {
      assert shuffled[pick.value] in multiset(dungeons);
    } else {
      forall x | x in dungeons
        ensures x.isActive
      {
        assert x in multiset(shuffled);
      }
    }
  }

  /** The dungeons the entry point creates: n of them, numbered 1 to n, idle and unused. */
  method CreateDungeons(n: int) returns (dungeons: seq<Dungeon>)
    ensures |dungeons| == Max(n, 0)
    ensures forall k :: 0 <= k < |dungeons| ==>
      && fresh(dungeons[k])
      && dungeons[k].id == k + 1
      && !dungeons[k].isActive && dungeons[k].currentParty == "None"
      && dungeons[k].partiesServed == 0 && dungeons[k].totalTimeServed == 0
    ensures forall k, m :: 0 <= k < m < |dungeons| ==> dungeons[k] != dungeons[m]
  {
    dungeons := [];
    var i := 0;
    while i < n
      invariant 0 <= i <= Max(n, 0) && |dungeons| == i
      invariant forall k :: 0 <= k < i ==>
        && fresh(dungeons[k])
        && dungeons[k].id == k + 1
        && !dungeons[k].isActive && dungeons[k].currentParty == "None"
        && dungeons[k].partiesServed == 0 && dungeons[k].totalTimeServed == 0
      invariant forall k, m :: 0 <= k < m < i ==> dungeons[k] != dungeons[m]
    {
      var dungeon := new Dungeon(i + 1);
      dungeons := dungeons + [dungeon];
      i := i + 1;
    }
  }

  /** The dungeons some submission was handed to. */
  function Targets(subs: seq<Submission>): set<Dungeon>
  {
    set j | 0 <= j < |subs| && subs[j].target.Some? :: subs[j].target.value
  }

  /** How many submissions went to `x`. */
  function Served(subs: seq<Submission>, x: Dungeon): nat
  {
    if subs == [] then 0
    else Served(subs[..|subs| - 1], x) + (if subs[|subs| - 1].target == Some(x) then 1 else 0)
  }

  /** The durations of the submissions that went to `x`, added up. */
  function TimeServed(subs: seq<Submission>, x: Dungeon): int
  {
    if subs == [] then 0
    else TimeServed(subs[..|subs| - 1], x) + (if subs[|subs| - 1].target == Some(x) then subs[|subs| - 1].time else 0)
  }

  /**
   * The executor running the submitted tasks, one after another: each
   * dungeon ends with one more party per submission it received and their
   * durations added; with non-negative durations every used dungeon ends idle.
   */
  method ExecuteAll(subs: seq<Submission>)
    modifies Targets(subs)
    ensures forall x :: x in Targets(subs) ==>
      && x.partiesServed == old(x.partiesServed) + Served(subs, x)
      && x.totalTimeServed == old(x.totalTimeServed) + TimeServed(subs, x)
    ensures (forall j :: 0 <= j < |subs| ==> subs[j].time >= 0) ==>
      forall x :: x in Targets(subs) ==> !x.isActive && x.currentParty == "None"
  {
    var i := 0;
    while i < |subs|
      invariant 0 <= i <= |subs|
      invariant forall x :: x in Targets(subs) ==>
        && x.partiesServed == old(x.partiesServed) + Served(subs[..i], x)
        && x.totalTimeServed == old(x.totalTimeServed) + TimeServed(subs[..i], x)
      invariant (forall j :: 0 <= j < |subs| ==> subs[j].time >= 0) ==>
        forall x :: x in Targets(subs[..i]) ==> !x.isActive && x.currentParty == "None"
    {
      ExecutedStep(subs, i);
      if subs[i].target.Some? {
        var dungeon := subs[i].target.value;
        assert dungeon in Targets(subs);
        var left := dungeon.EnterDungeon(subs[i].party, subs[i].time);
      }
      i := i + 1;
    }
    assert subs[..|subs|] == subs;
  }

  /** Executing one more submission credits only its target, once, with its time. */
  lemma ExecutedStep(subs: seq<Submission>, i: int)
    requires 0 <= i < |subs|
    ensures forall x :: Served(subs[..i + 1], x) == Served(subs[..i], x) + (if subs[i].target == Some(x) then 1 else 0)
    ensures forall x :: TimeServed(subs[..i + 1], x) == TimeServed(subs[..i], x) + (if subs[i].target == Some(x) then subs[i].time else 0)
    ensures Targets(subs[..i + 1]) == Targets(subs[..i]) + (if subs[i].target.Some? then {subs[i].target.value} else {})
  {
    assert subs[..i + 1][..i] == subs[..i];
  }

  /**
   * The entry point after its parameters are accepted: create the dungeons,
   * run the party loop, let the executor run what was handed over. Every
   * party is handed to a dungeon, because isActive, which waits for the
   * monitor enterDungeon holds through the whole stay, only ever sees an idle
   * dungeon; min(T, H, D div 3) parties are formed; the leftovers are what the
   * loop left in its counters; each dungeon is credited once per party it
   * received, with that party's time, and ends idle.
   */
  method RunLfg(c: Config) returns (dungeons: seq<Dungeon>, subs: seq<Submission>, t: int, h: int, d: int)
    requires ValidConfig(c)
    ensures |dungeons| == c.n
    ensures forall k :: 0 <= k < |dungeons| ==> dungeons[k].id == k + 1
    ensures |subs| == Min3(c.tanks, c.healers, c.dps / 3)
    ensures t == c.tanks - |subs| && h == c.healers - |subs| && d == c.dps - 3 * |subs|
    ensures t < 1 || h < 1 || d < 3
    ensures forall j :: 0 <= j < |subs| ==> subs[j].target.Some? && subs[j].target.value in dungeons
    ensures forall k :: 0 <= k < |dungeons| ==>
      && dungeons[k].partiesServed == Served(subs, dungeons[k])
      && dungeons[k].totalTimeServed == TimeServed(subs, dungeons[k])
      && !dungeons[k].isActive && dungeons[k].currentParty == "None"
    ensures Distinct(dungeons)
    ensures forall j :: 0 <= j < |subs| ==> c.minTime <= subs[j].time <= c.maxTime
    ensures PartiesTotal(dungeons) == |subs|
    ensures TimeTotal(dungeons) == Sum(Times(subs))
    ensures |subs| * c.minTime <= TimeTotal(dungeons) <= |subs| * c.maxTime
  {
    dungeons := CreateDungeons(c.n);
    assert dungeons[0] in dungeons;
    var order;
    order, subs, t, h, d := ProcessParties(dungeons, c.tanks, c.healers, c.dps, c.minTime, c.maxTime);
    RoundsIsMin(c.tanks, c.healers, c.dps);
    forall j | 0 <= j < |subs|
      ensures c.minTime <= subs[j].time <= c.maxTime
    {
      assert FormedAs(subs[j], j, c.tanks, c.healers, c.dps, c.minTime, c.maxTime, dungeons);
    }
    ExecuteAll(subs);
    forall k | 0 <= k < |dungeons| && dungeons[k] !in Targets(subs)
      ensures Served(subs, dungeons[k]) == 0 && TimeServed(subs, dungeons[k]) == 0
    {
      NeverTargeted(subs, dungeons[k]);
    }
    PoolTotals(subs, dungeons);
    TotalsFromCredits(subs, dungeons);
    SumBounds(Times(subs), c.minTime, c.maxTime);
  }

  /** No dungeon occurs twice in the list. */
  predicate Distinct(ds: seq<Dungeon>)
  {
    forall k, m :: 0 <= k < m < |ds| ==> ds[k] != ds[m]
  }

  /** The drawn times of the submissions, in order. */
  function Times(subs: seq<Submission>): seq<int>
  {
    seq(|subs|, j requires 0 <= j < |subs| => subs[j].time)
  }

  /** How often `x` occurs in the list. */
  function Hits(x: Dungeon, ds: seq<Dungeon>): nat
  {
    if ds == [] then 0 else Hits(x, ds[..|ds| - 1]) + (if ds[|ds| - 1] == x then 1 else 0)
  }

  /** Served, added up over a list of dungeons. */
  function AllServed(subs: seq<Submission>, ds: seq<Dungeon>): int
  {
    if ds == [] then 0 else AllServed(subs, ds[..|ds| - 1]) + Served(subs, ds[|ds| - 1])
  }

  /** TimeServed, added up over a list of dungeons. */
  function AllTime(subs: seq<Submission>, ds: seq<Dungeon>): int
  {
    if ds == [] then 0 else AllTime(subs, ds[..|ds| - 1]) + TimeServed(subs, ds[|ds| - 1])
  }

  /** The parties served shown by the final status of every dungeon, added up. */
  function PartiesTotal(ds: seq<Dungeon>): int
    reads ds
  {
    if ds == [] then 0 else PartiesTotal(ds[..|ds| - 1]) + ds[|ds| - 1].partiesServed
  }

  /** The time served shown by the final status of every dungeon, added up. */
  function TimeTotal(ds: seq<Dungeon>): int
    reads ds
  {
    if ds == [] then 0 else TimeTotal(ds[..|ds| - 1]) + ds[|ds| - 1].totalTimeServed
  }

  /** In a list without repeats, a dungeon occurs once if it is there and not at all otherwise. */
  lemma {:induction false} HitsDistinct(x: Dungeon, ds: seq<Dungeon>)
    requires Distinct(ds)
    ensures Hits(x, ds) == (if x in ds then 1 else 0)
  {
    if ds != [] {
      var init := ds[..|ds| - 1];
      assert Distinct(init);
      HitsDistinct(x, init);
      assert ds == init + [ds[|ds| - 1]];
      if ds[|ds| - 1] == x {
        forall k | 0 <= k < |init|
          ensures init[k] != x
        {
          assert init[k] == ds[k];
        }
      }
    }
  }

  /** With no submissions, no dungeon of the list is credited. */
  lemma {:induction false} AllNone(ds: seq<Dungeon>)
    ensures AllServed([], ds) == 0 && AllTime([], ds) == 0
  {
    if ds != [] {
      AllNone(ds[..|ds| - 1]);
    }
  }

  /** One more submission adds, over the list, its time once per occurrence of its target. */
  lemma {:induction false} AllStep(subs: seq<Submission>, ds: seq<Dungeon>)
    requires subs != []
    ensures var s := subs[|subs| - 1];
      var n := if s.target.Some? then Hits(s.target.value, ds) else 0;
      && AllServed(subs, ds) == AllServed(subs[..|subs| - 1], ds) + n
      && AllTime(subs, ds) == AllTime(subs[..|subs| - 1], ds) + n * s.time
  {
    if ds != [] {
      var s := subs[|subs| - 1];
      var init := ds[..|ds| - 1];
      AllStep(subs, init);
      var n0 := if s.target.Some? then Hits(s.target.value, init) else 0;
      var b := if s.target == Some(ds[|ds| - 1]) then 1 else 0;
      assert (n0 + b) * s.time == n0 * s.time + b * s.time;
    }
  }

  /**
   * When every submission went to a dungeon of a list without repeats, the
   * list as a whole is credited once per submission and with every drawn time.
   */
  lemma {:induction false} PoolTotals(subs: seq<Submission>, ds: seq<Dungeon>)
    requires Distinct(ds)
    requires forall j :: 0 <= j < |subs| ==> subs[j].target.Some? && subs[j].target.value in ds
    ensures AllServed(subs, ds) == |subs|
    ensures AllTime(subs, ds) == Sum(Times(subs))
  {
    if subs == [] {
      AllNone(ds);
    } else {
      var init := subs[..|subs| - 1];
      var s := subs[|subs| - 1];
      assert forall j :: 0 <= j < |init| ==> init[j] == subs[j];
      PoolTotals(init, ds);
      AllStep(subs, ds);
      HitsDistinct(s.target.value, ds);
      assert Times(subs)[..|subs| - 1] == Times(init);
    }
  }

  /** Dungeons credited as Served and TimeServed say show those credits in their totals. */
  lemma {:induction false} TotalsFromCredits(subs: seq<Submission>, ds: seq<Dungeon>)
    requires forall k :: 0 <= k < |ds| ==>
      ds[k].partiesServed == Served(subs, ds[k]) && ds[k].totalTimeServed == TimeServed(subs, ds[k])
    ensures PartiesTotal(ds) == AllServed(subs, ds) && TimeTotal(ds) == AllTime(subs, ds)
  {
    if ds != [] {
      TotalsFromCredits(subs, ds[..|ds| - 1]);
    }
  }

  /** A dungeon no submission went to is credited nothing. */
  lemma {:induction false} NeverTargeted(subs: seq<Submission>, x: Dungeon)
    requires x !in Targets(subs)
    ensures Served(subs, x) == 0 && TimeServed(subs, x) == 0
  {
    if subs != [] {
      var init := subs[..|subs| - 1];
      assert Targets(init) <= Targets(subs);
      NeverTargeted(init, x);
    }
  }
}
