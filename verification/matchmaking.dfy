/**
 * The first-in-first-out matchmaker of LFGDungeonQueue.java (class LFGQueue):
 * three role queues filled by AddPlayer and drained into parties of one tank,
 * one healer and three DPS by FormParties.
 */
module PartyMatchmaking {
  import opened Common
  import opened Labels

  /**
   * A formed party: the five player labels, the party number printed for it
   * (the counter after its increment) and the dungeon id its run is given.
   */
  datatype Party = Party(
    tank: string, healer: string, dps1: string, dps2: string, dps3: string,
    number: int, dungeonId: int)

  /** The three role queues, oldest player first. */
  datatype Queues = Queues(tanks: seq<string>, healers: seq<string>, dps: seq<string>)

  /** The loop guard: one tank, one healer and three DPS are waiting. */
  predicate CanForm(q: Queues)
  {
    |q.tanks| != 0 && |q.healers| != 0 && |q.dps| >= 3
  }

  /** The labels one AddPlayer call enqueues for a role: Prefix-1, ..., Prefix-count. */
  function Numbered(prefix: string, count: int): (r: seq<string>)
    ensures |r| == Max(count, 0)
    decreases Max(count, 0)
  {
    if count <= 0 then [] else Numbered(prefix, count - 1) + [Label(prefix, count)]
  }

  /** The labels are numbered 1 upwards, in order. */
  lemma {:induction false} NumberedAt(prefix: string, count: int)
    ensures forall k :: 0 <= k < |Numbered(prefix, count)| ==> Numbered(prefix, count)[k] == Label(prefix, k + 1)
    decreases Max(count, 0)
  {
    if count > 0 {
      NumberedAt(prefix, count - 1);
    }
  }

  /** No label is enqueued twice by one AddPlayer call. */
  lemma NumberedDistinct(prefix: string, count: int)
    ensures forall i, j :: 0 <= i < j < |Numbered(prefix, count)| ==> Numbered(prefix, count)[i] != Numbered(prefix, count)[j]
  {
    NumberedAt(prefix, count);
    forall i, j | 0 <= i < j < |Numbered(prefix, count)|
      ensures Numbered(prefix, count)[i] != Numbered(prefix, count)[j]
    {
      LabelInjective(prefix, i + 1, j + 1);
    }
  }

  /**
   * What the formation loop computes, one iteration per step: the parties
   * formed from queues `q`, with the party counter at `counter` and the next
   * dungeon id `nextId`, and the queues it leaves.
   */
  function Matchmake(q: Queues, counter: int, nextId: int): (seq<Party>, Queues)
    decreases |q.tanks|
  {
    if !CanForm(q) then ([], q)
    else
      var rest := Matchmake(Rest(q), counter + 1, nextId + 1);
      ([NextParty(q, counter, nextId)] + rest.0, rest.1)
  }

  /** The party one iteration polls: the oldest tank, healer and three DPS. */
  function NextParty(q: Queues, counter: int, nextId: int): Party
    requires CanForm(q)
  {
    Party(q.tanks[0], q.healers[0], q.dps[0], q.dps[1], q.dps[2], counter + 1, nextId)
  }

  /** The queues after one iteration has polled its party. */
  function Rest(q: Queues): Queues
    requires CanForm(q)
  {
    Queues(q.tanks[1..], q.healers[1..], q.dps[3..])
  }

  /**
   * The matchmaking result in closed form: min(T, H, D div 3) parties; party
   * j takes the j-th oldest tank and healer and the DPS at 3j, 3j+1, 3j+2, is
   * numbered counter + j + 1 and gets dungeon id nextId + j; the queues keep
   * exactly what was not taken, and no further party can be formed.
   */
  lemma {:induction false} MatchmakeFifo(q: Queues, counter: int, nextId: int)
    ensures var k := |Matchmake(q, counter, nextId).0|;
      && k == Rounds(|q.tanks|, |q.healers|, |q.dps|)
      && k <= |q.tanks| && k <= |q.healers| && 3 * k <= |q.dps|
      && Matchmake(q, counter, nextId).1 == Queues(q.tanks[k..], q.healers[k..], q.dps[3 * k..])
      && !CanForm(Matchmake(q, counter, nextId).1)
      && (forall j :: 0 <= j < k ==>
            Matchmake(q, counter, nextId).0[j] ==
            Party(q.tanks[j], q.healers[j], q.dps[3 * j], q.dps[3 * j + 1], q.dps[3 * j + 2], counter + j + 1, nextId + j))
  {
    MatchmakeCount(q, counter, nextId);
    MatchmakeLeftover(q, counter, nextId);
    MatchmakeParties(q, counter, nextId);
    var parties := Matchmake(q, counter, nextId).0;
    forall j | 0 <= j < |parties|
      ensures parties[j] ==
        Party(q.tanks[j], q.healers[j], q.dps[3 * j], q.dps[3 * j + 1], q.dps[3 * j + 2], counter + j + 1, nextId + j)
    {
      assert TakesFrom(q, counter, nextId, j, parties[j]);
    }
  }

  /** The loop runs exactly as often as the guard allows, taking at most what is waiting. */
  lemma {:induction false} MatchmakeCount(q: Queues, counter: int, nextId: int)
    ensures var k := |Matchmake(q, counter, nextId).0|;
      && k == Rounds(|q.tanks|, |q.healers|, |q.dps|)
      && k <= |q.tanks| && k <= |q.healers| && 3 * k <= |q.dps|
    decreases |q.tanks|
  {
    if CanForm(q) {
      MatchmakeCount(Rest(q), counter + 1, nextId + 1);
    }
  }

  /** The queues keep exactly what the loop did not take, and the guard fails on them. */
  lemma {:induction false} MatchmakeLeftover(q: Queues, counter: int, nextId: int)
    ensures var k := Rounds(|q.tanks|, |q.healers|, |q.dps|);
      && k <= |q.tanks| && k <= |q.healers| && 3 * k <= |q.dps|
      && Matchmake(q, counter, nextId).1 == Queues(q.tanks[k..], q.healers[k..], q.dps[3 * k..])
      && !CanForm(Matchmake(q, counter, nextId).1)
    decreases |q.tanks|
  {
    if CanForm(q) {
      var q' := Rest(q);
      MatchmakeLeftover(q', counter + 1, nextId + 1);
      var k := Rounds(|q.tanks|, |q.healers|, |q.dps|);
      assert k == Rounds(|q'.tanks|, |q'.healers|, |q'.dps|) + 1;
      assert q'.tanks[k - 1..] == q.tanks[k..];
      assert q'.healers[k - 1..] == q.healers[k..];
      assert q'.dps[3 * (k - 1)..] == q.dps[3 * k..];
    }
  }

  /**
   * Party `p` is the j-th one formed from `q`: the j-th oldest tank and
   * healer, the DPS at 3j, 3j+1, 3j+2, number counter + j + 1, dungeon id nextId + j.
   */
  predicate TakesFrom(q: Queues, counter: int, nextId: int, j: nat, p: Party)
  {
    && j < |q.tanks| && j < |q.healers| && 3 * j + 2 < |q.dps|
    && p == Party(q.tanks[j], q.healers[j], q.dps[3 * j], q.dps[3 * j + 1], q.dps[3 * j + 2], counter + j + 1, nextId + j)
  }

  /** Party j formed after one poll is party j + 1 formed before it. */
  lemma TakesFromShift(q: Queues, counter: int, nextId: int, j: nat, p: Party)
    requires CanForm(q) && TakesFrom(Rest(q), counter + 1, nextId + 1, j, p)
    ensures TakesFrom(q, counter, nextId, j + 1, p)
  {
    var q' := Rest(q);
    assert q'.dps[3 * j] == q.dps[3 * (j + 1)];
    assert q'.dps[3 * j + 1] == q.dps[3 * (j + 1) + 1];
    assert q'.dps[3 * j + 2] == q.dps[3 * (j + 1) + 2];
  }

  /** Party j holds the j-th oldest tank and healer and the DPS at 3j, 3j+1, 3j+2. */
  lemma {:induction false} MatchmakeParties(q: Queues, counter: int, nextId: int)
    ensures forall j :: 0 <= j < |Matchmake(q, counter, nextId).0| ==>
      TakesFrom(q, counter, nextId, j, Matchmake(q, counter, nextId).0[j])
    decreases |q.tanks|
  {
    if CanForm(q) {
      var q' := Rest(q);
      MatchmakeParties(q', counter + 1, nextId + 1);
      var parties := Matchmake(q, counter, nextId).0;
      var rest := Matchmake(q', counter + 1, nextId + 1).0;
      assert parties == [NextParty(q, counter, nextId)] + rest;
      forall j | 0 <= j < |parties|
        ensures TakesFrom(q, counter, nextId, j, parties[j])
      {
        if j > 0 {
          assert parties[j] == rest[j - 1];
          TakesFromShift(q, counter, nextId, j - 1, rest[j - 1]);
        }
      }
    } else {
      assert Matchmake(q, counter, nextId).0 == [];
    }
  }

  /** The queue object of LFGQueue: three FIFO role queues and the party counter. */
  class LfgQueue {
    var tanks: seq<string>
    var healers: seq<string>
    var dps: seq<string>
    var partyCounter: int

    constructor ()
      ensures tanks == [] && healers == [] && dps == [] && partyCounter == 0
    {
      tanks, healers, dps := [], [], [];
      partyCounter := 0;
    }

    /** The three queues as one value. */
    function Waiting(): Queues
      reads this
    {
      Queues(tanks, healers, dps)
    }

    /**
     * Appends Tank-1..Tank-count, Healer-1..Healer-count or DPS-1..DPS-count
     * to the queue of `role`; any other role string changes nothing.
     */
    method AddPlayer(role: string, count: int)
      modifies this`tanks, this`healers, this`dps
      ensures tanks == old(tanks) + (if role == "tank" then Numbered("Tank", count) else [])
      ensures healers == old(healers) + (if role == "healer" then Numbered("Healer", count) else [])
      ensures dps == old(dps) + (if role == "dps" then Numbered("DPS", count) else [])
      ensures partyCounter == old(partyCounter)
    {
      var i := 1;
      while i <= count
        invariant 1 <= i <= Max(count, 0) + 1
        invariant tanks == old(tanks) + (if role == "tank" then Numbered("Tank", i - 1) else [])
        invariant healers == old(healers) + (if role == "healer" then Numbered("Healer", i - 1) else [])
        invariant dps == old(dps) + (if role == "dps" then Numbered("DPS", i - 1) else [])
      {
        if role == "tank" {
          assert Numbered("Tank", i) == Numbered("Tank", i - 1) + [Label("Tank", i)];
          tanks := tanks + [Label("Tank", i)];
        } else if role == "healer" {
          assert Numbered("Healer", i) == Numbered("Healer", i - 1) + [Label("Healer", i)];
          healers := healers + [Label("Healer", i)];
        } else if role == "dps" {
          assert Numbered("DPS", i) == Numbered("DPS", i - 1) + [Label("DPS", i)];
          dps := dps + [Label("DPS", i)];
        }
        i := i + 1;
      }
    }

    /**
     * One iteration's polls: take the oldest tank, healer and three DPS off
     * their queues and bump the party counter; the party carries the new
     * counter and the given dungeon id.
     */
    method PollParty(dungeonId: int) returns (party: Party)
      requires CanForm(Waiting())
      modifies this`tanks, this`healers, this`dps, this`partyCounter
      ensures party == NextParty(old(Waiting()), old(partyCounter), dungeonId)
      ensures Waiting() == Rest(old(Waiting()))
      ensures partyCounter == old(partyCounter) + 1
    {
      var tank := tanks[0];
      tanks := tanks[1..];
      var healer := healers[0];
      healers := healers[1..];
      var dps1 := dps[0];
      var dps2 := dps[1];
      var dps3 := dps[2];
      dps := dps[3..];
      partyCounter := partyCounter + 1;
      party := Party(tank, healer, dps1, dps2, dps3, partyCounter, dungeonId);
    }

    /**
     * The party-forming loop of formAndRunParties: while a tank, a healer and
     * three DPS wait, poll them, bump the party counter and hand the party the
     * next dungeon id, starting at 0. The runs it would start are not part of
     * this method.
     */
    method FormParties() returns (parties: seq<Party>)
      modifies this`tanks, this`healers, this`dps, this`partyCounter
      ensures (parties, Waiting()) == Matchmake(old(Waiting()), old(partyCounter), 0)
      ensures partyCounter == old(partyCounter) + |parties|
      ensures !CanForm(Waiting())
    {
      parties := [];
      var dungeonId := 0;
      while |tanks| != 0 && |healers| != 0 && |dps| >= 3
        invariant dungeonId == |parties|
        invariant partyCounter == old(partyCounter) + |parties|
        invariant Matchmake(old(Waiting()), old(partyCounter), 0).0
          == parties + Matchmake(Waiting(), partyCounter, dungeonId).0
        invariant Matchmake(old(Waiting()), old(partyCounter), 0).1
          == Matchmake(Waiting(), partyCounter, dungeonId).1
        decreases |tanks|
      {
        var party := PollParty(dungeonId);
        dungeonId := dungeonId + 1;
        assert parties + ([party] + Matchmake(Waiting(), partyCounter, dungeonId).0)
          == (parties + [party]) + Matchmake(Waiting(), partyCounter, dungeonId).0;
        parties := parties + [party];
      }
      assert Matchmake(Waiting(), partyCounter, dungeonId) == ([], Waiting());
      assert parties + [] == parties;
    }
  }

  /**
   * The matchmaking part of the program's entry point: a fresh queue gets T
   * tanks, H healers and D DPS, then parties are formed. Exactly
   * min(T, H, D div 3) parties come out, party j holding Tank-(j+1),
   * Healer-(j+1) and DPS-(3j+1)..DPS-(3j+3), numbered j+1 with dungeon id j,
   * and the leftover queues hold the rest in their original order.
   */
  method RunMatchmaking(t: int, h: int, d: int) returns (parties: seq<Party>, left: Queues)
    ensures |parties| == Min3(Max(t, 0), Max(h, 0), Max(d, 0) / 3)
    ensures forall j :: 0 <= j < |parties| ==>
      parties[j] == Party(Label("Tank", j + 1), Label("Healer", j + 1),
                          Label("DPS", 3 * j + 1), Label("DPS", 3 * j + 2), Label("DPS", 3 * j + 3), j + 1, j)
    ensures left == Queues(Numbered("Tank", t)[|parties|..], Numbered("Healer", h)[|parties|..], Numbered("DPS", d)[3 * |parties|..])
    ensures !CanForm(left)
  {
    var lfg := FilledQueue(t, h, d);
    var filled := lfg.Waiting();
    parties := lfg.FormParties();
    left := lfg.Waiting();
    assert (parties, left) == Matchmake(filled, 0, 0);
    MatchmakeFifo(filled, 0, 0);
    RoundsIsMin(Max(t, 0), Max(h, 0), Max(d, 0));
    NumberedParties(t, h, d);
  }

  /**
   * The entry point's three addPlayer calls on a new queue: T tanks, then H
   * healers, then D DPS, each numbered from 1.
   */
  method FilledQueue(t: int, h: int, d: int) returns (lfg: LfgQueue)
    ensures fresh(lfg)
    ensures lfg.Waiting() == Queues(Numbered("Tank", t), Numbered("Healer", h), Numbered("DPS", d))
    ensures lfg.partyCounter == 0
  {
    lfg := new LfgQueue();
    lfg.AddPlayer("tank", t);
    assert lfg.Waiting() == Queues(Numbered("Tank", t), [], []);
    lfg.AddPlayer("healer", h);
    assert lfg.Waiting() == Queues(Numbered("Tank", t), Numbered("Healer", h), []);
    lfg.AddPlayer("dps", d);
  }

  /** Matchmaking over freshly numbered queues: party j holds the (j+1)-th tank and healer and DPS 3j+1..3j+3. */
  lemma NumberedParties(t: int, h: int, d: int)
    ensures var parties := Matchmake(Queues(Numbered("Tank", t), Numbered("Healer", h), Numbered("DPS", d)), 0, 0).0;
      forall j :: 0 <= j < |parties| ==>
        parties[j] == Party(Label("Tank", j + 1), Label("Healer", j + 1),
                            Label("DPS", 3 * j + 1), Label("DPS", 3 * j + 2), Label("DPS", 3 * j + 3), j + 1, j)
  {
    MatchmakeFifo(Queues(Numbered("Tank", t), Numbered("Healer", h), Numbered("DPS", d)), 0, 0);
    NumberedAt("Tank", t);
    NumberedAt("Healer", h);
    NumberedAt("DPS", d);
  }
}
