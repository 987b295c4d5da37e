# Looking-for-group dungeon simulation, modelled in Dafny

The repository holds two versions of one simulation. Players wait in role
queues (tanks, healers, DPS). They are grouped into parties of one tank, one
healer and three DPS. Each party spends a random number of seconds, between
t1 and t2, in one of a limited number of dungeon instances. The two versions
run the visits concurrently in different ways:
- `LFGDungeonQueue.java` starts one thread per party.
- `LFG.java` submits each visit to a fixed pool of n threads, so the visits
  share those threads.

This model keeps the sequential core of each version and treats every thread
step as one atomic step.

- `LFGDungeonQueue.java` has three parts:
  - The FIFO matchmaker `LFGQueue`, modelled in `matchmaking.dfy` as module
    `PartyMatchmaking`.
  - The run bookkeeping `DungeonQueue`, modelled in `dungeon_runs.dfy` as
    module `DungeonRuns`. It has a semaphore of `maxInstances` permits, a map
    from active dungeon id to remaining seconds, and the counters
    `totalPartiesServed` and `totalTimeServed`.
  - The semaphore is a permit counter. A ghost count of held permits goes with
    it. A run of `runDungeon` is a chain of atomic steps:
    `Acquire`, `DrawDuration`, `Activate`, `Tick`, `Complete` and `Release`.
    `RunDungeon` links them together and says what a whole run does on every
    path: completed, interrupted, still waiting for a permit, or an empty
    duration range.
  - `FormAndRunParties` and `RunQueueProgram` chain party formation with
    the runs of every formed party, as `formAndRunParties` and the entry
    point do.
- `LFG.java` is modelled in `lfg.dfy` as module `Lfg`:
  - The `Dungeon` class credits a party when it enters. Leaving only clears
    the occupancy.
  - The parameter checks of the entry point become predicates.
  - The counter-based party loop names each party after the highest-numbered
    players still waiting.
  - Each party goes to the first idle dungeon of a shuffled list. This choice
    is `ShuffleAndPick`, inside `FormParty` and `ProcessParties`.
  - `RunLfg` puts these together. It also executes the submitted parties one
    after another (`ExecuteAll`).
- `common.dfy` (module `Common`) holds `Rounds`. It counts how often a loop
  guarded by "1 tank, 1 healer, 3 DPS" runs. Lemma `RoundsIsMin` proves the
  count is min(T, H, D div 3). Both versions use it.
- `labels.dfy` (module `Labels`) renders player labels such as `Tank-3` in
  decimal. It comes with a parser, and a round-trip lemma shows that labels
  are unique.

Notes on the code:
- Dungeon ids in `LFGDungeonQueue.java` are handed out per party (0, 1, 2, …).
  They are not slot numbers below the capacity.
- `LFG.java` credits a dungeon's counters when the party enters, not when the
  run completes.
- An interrupted run in `LFGDungeonQueue.java` leaves its entry in the active
  map. It is not forcibly cleared.
- Neither version takes a snapshot.
- In `LFGDungeonQueue.java` nothing checks the durations. A negative t1 gives
  negative durations, and these are credited as they are.

## Model

| member | source | states |
|---|---|---|
| `Common.RoundsIsMin` | LFGDungeonQueue.java:122 | A loop guarded by tanks ≥ 1, healers ≥ 1, DPS ≥ 3 that takes 1/1/3 per round runs max(0, min(T, H, D div 3)) times. |
| `Common.RoundsExhaust` | LFG.java:152 | The guard holds before each of the first `Rounds` iterations and fails after the last one, so the count is exactly the number of iterations. |
| `Labels.Decimal` | LFGDungeonQueue.java:110 | A player number is rendered as a non-empty string of decimal digits with no leading zero. |
| `Labels.ParseDecimalInverts` | LFGDungeonQueue.java:110 | Reading the decimal rendering of a number back gives the number (round trip). |
| `Labels.LabelInjective` | LFG.java:154 | Two labels of one role are equal exactly when their numbers are. |
| `PartyMatchmaking.Numbered` | LFGDungeonQueue.java:108 | One `addPlayer(role, count)` enqueues exactly max(count, 0) labels. |
| `PartyMatchmaking.NumberedAt` | LFGDungeonQueue.java:107-117 | The k-th label enqueued is `Role-(k+1)`, so the labels are Role-1 … Role-count in increasing order. |
| `PartyMatchmaking.NumberedDistinct` | LFGDungeonQueue.java:107-117 | No label is enqueued twice by one `addPlayer` call. |
| `PartyMatchmaking.MatchmakeFifo` | LFGDungeonQueue.java:122-132 | Draining queues gives min(T, H, D div 3) parties. Party j takes the j-th oldest tank and healer and DPS 3j, 3j+1, 3j+2, and is numbered counter + j + 1 with dungeon id nextId + j. The queues keep exactly their untaken suffixes, and no further party can form. |
| `PartyMatchmaking.MatchmakeCount` | LFGDungeonQueue.java:122 | The formation loop runs `Rounds(T, H, D)` times and never takes more players of a role than are waiting. |
| `PartyMatchmaking.MatchmakeLeftover` | LFGDungeonQueue.java:122-127 | After the loop each queue holds exactly its untaken suffix, and the loop guard is false on it. |
| `PartyMatchmaking.MatchmakeParties` | LFGDungeonQueue.java:123-132 | The j-th party polls the j-th oldest tank and healer and DPS 3j..3j+2, with number counter + j + 1 and dungeon id nextId + j. |
| `PartyMatchmaking.LfgQueue.constructor` | LFGDungeonQueue.java:97-100 | The queues start empty and the party counter at 0. |
| `PartyMatchmaking.LfgQueue.AddPlayer` | LFGDungeonQueue.java:107-117 | Appends the numbered labels to the queue named by `role` ("tank", "healer", "dps"). The other queues are unchanged, and any other role string changes nothing. |
| `PartyMatchmaking.LfgQueue.PollParty` | LFGDungeonQueue.java:123-132 | One iteration removes the head tank, healer and three DPS. The counter rises by 1, and the party carries the new counter and the given dungeon id. |
| `PartyMatchmaking.LfgQueue.FormParties` | LFGDungeonQueue.java:119-136 | The loop's parties and remaining queues are those of `Matchmake` from the old queues with dungeon ids from 0. The counter rises by one per party, and on exit the guard is false. |
| `PartyMatchmaking.FilledQueue` | LFGDungeonQueue.java:167-171 | After the three `addPlayer` calls on a new queue, the queues hold Tank-1..Tank-T, Healer-1..Healer-H and DPS-1..DPS-D in order, and the counter is 0. |
| `PartyMatchmaking.RunMatchmaking` | LFGDungeonQueue.java:169-173 | From counts T, H, D, exactly min(T, H, D div 3) parties are formed. Party j is Tank-(j+1), Healer-(j+1), DPS-(3j+1)..DPS-(3j+3), numbered j+1 with dungeon id j. The leftovers are the untaken labels in order. |
| `PartyMatchmaking.NumberedParties` | LFGDungeonQueue.java:123-127 | Over freshly numbered queues, party j names the (j+1)-th tank and healer and DPS 3j+1..3j+3. |
| `DungeonRuns.DungeonQueue.constructor` | LFGDungeonQueue.java:14-22 | All `maxInstances` permits are free, none is held, the active map is empty and both counters are 0. |
| `DungeonRuns.DungeonQueue.Acquire` | LFGDungeonQueue.java:26 | An interrupted thread is refused whatever the count. Otherwise one free permit is taken, or the run must wait. From a valid state, free + held permits stay equal to the capacity and no more runs hold a permit than the capacity. |
| `DungeonRuns.DungeonQueue.DrawDuration` | LFGDungeonQueue.java:27 | The drawn duration lies in [t1, t2] inclusive. The draw fails exactly when t2 < t1 (empty range). |
| `DungeonRuns.DungeonQueue.Activate` | LFGDungeonQueue.java:29-32 | The dungeon id is mapped to the full duration. Other entries are unchanged. |
| `DungeonRuns.DungeonQueue.Tick` | LFGDungeonQueue.java:36-39 | After tick i the entry is duration − i − 1. |
| `DungeonRuns.DungeonQueue.Complete` | LFGDungeonQueue.java:42-47 | The entry is removed, `totalPartiesServed` rises by exactly 1 and `totalTimeServed` by exactly the duration. |
| `DungeonRuns.DungeonQueue.Release` | LFGDungeonQueue.java:50-52 | The `finally` returns a permit only if one was taken (corrected form, see Findings), keeping free + held = capacity. |
| `DungeonRuns.DungeonQueue.ReleaseAsWritten` | LFGDungeonQueue.java:51 | The `finally` as written returns a permit on every path. |
| `DungeonRuns.DungeonQueue.RunDungeon` | LFGDungeonQueue.java:24-53 | One run on every path. It waits exactly when no permit is free. It completes exactly when admitted, the range is non-empty and no sleep before the last tick is interrupted. The values the map holds for the id, read after activation and after each tick, are duration, duration−1, …, 0 (a prefix of them when a sleep is interrupted). On completion the entry is removed and the counters rise by 1 and the duration. Otherwise the counters are unchanged, and an interrupted sleep at tick k leaves the entry at duration − k. The permit count is the same afterwards (corrected release, see Findings: as written, an interrupted `acquire` leaves one permit more). |
| `DungeonRuns.DungeonQueue.ServeInOrder` | LFGDungeonQueue.java:132-144 | With t1 ≤ t2, every formed party's run completes. The counters rise by exactly the number of parties and the sum of their durations. Each duration is in [t1, t2], so the added time is between n·t1 and n·t2, and all their entries are removed. With t2 < t1, every draw throws: nothing is credited and the map is unchanged. |
| `DungeonRuns.CapacityBound` | LFGDungeonQueue.java:15 | In a valid state, neither the free permits nor the runs holding a permit exceed the semaphore's size. |
| `DungeonRuns.FormAndRunParties` | LFGDungeonQueue.java:119-145 | Forming the parties and then running and joining all of them: the parties are those of `Matchmake`, with `Rounds` of them. The queues can form no more. Parties served rise by that count if t1 ≤ t2 and by 0 otherwise. The time rises by exactly the sum of the drawn durations, each in [t1, t2], so it lies between count·t1 and count·t2. The party counter rises by the number of parties formed. With t1 ≤ t2 the map loses exactly those parties' entries; with t2 < t1 it is unchanged. No permit is needed when no party can form. |
| `DungeonRuns.RunQueueProgram` | LFGDungeonQueue.java:149-174 | From the six inputs: min(T, H, D div 3) parties are formed. All of them are served when t1 ≤ t2 and none when t2 < t1. The total time is exactly the sum of the drawn durations of the served runs, each in [t1, t2]. The leftover queues cannot form another party. |
| `Common.SumBounds` | LFGDungeonQueue.java:45 | A sum of n durations in [lo, hi] lies between n·lo and n·hi. |
| `DungeonRuns.OverReleaseWitness` | LFGDungeonQueue.java:48-51 | On capacity 1, an interrupted acquire followed by the as-written release leaves 2 free permits. Two later acquires are then both admitted, so 2 runs hold permits of a size-1 semaphore. |
| `Lfg.Dungeon.constructor` | LFG.java:6-14 | A new dungeon has its id, zero counters, is inactive and holds party "None". |
| `Lfg.Dungeon.Enter` | LFG.java:18-21 | On entry `isActive` is true, `currentParty` is the party, `partiesServed` rises by 1 and `totalTimeServed` by `time`, all before the wait. |
| `Lfg.Dungeon.Leave` | LFG.java:30-31 | After the wait `isActive` is false and `currentParty` is "None". Both counters keep their values. |
| `Lfg.Dungeon.EnterDungeon` | LFG.java:17-33 | The whole call credits 1 party and `time` seconds on entry. For `time` ≥ 0 it ends idle with "None", and an interrupted sleep ends the same way. A negative `time` makes the sleep throw, so the dungeon stays occupied by the party. The time counter never decreases for `time` ≥ 0. |
| `Lfg.ValidConfig` | LFG.java:77-140 | Input is accepted only when n ≥ 1; t, h, d ≥ 0; t1 ≥ 1; and t1 ≤ t2 ≤ 15. The random bound t2 − t1 + 1 is then between 1 and 15. |
| `Lfg.ShuffleAndPick` | LFG.java:160-168 | The new order is a permutation of the list. The pick is the first inactive dungeon in it, or none exactly when every dungeon is active. |
| `Lfg.PickIsHandedOver` | LFG.java:162-166 | A pick made over a permutation of the dungeons is an idle dungeon of the original list, or none only when all are active. |
| `Lfg.FormParty` | LFG.java:153-168 | One loop body names the party Tank-t, Healer-h, DPS-(d−2), DPS-(d−1), DPS-d, draws its time in [t1, t2] and hands it over to at most one idle dungeon. |
| `Lfg.ProcessParties` | LFG.java:152-169 | The loop runs `Rounds(t0, h0, d0)` times and leaves counters t0−k, h0−k, d0−3k where the guard is false. Party j names the highest-numbered remaining players (LIFO), has time in [t1, t2], and goes to an idle dungeon, or to none exactly when all are active. |
| `Lfg.CreateDungeons` | LFG.java:143-146 | n distinct fresh dungeons with ids 1..n, idle and with zero counters. |
| `Lfg.ExecuteAll` | LFG.java:164 | After the executor runs the submitted tasks, each dungeon has one more party per submission it received and their times added. With non-negative times each used dungeon ends idle. |
| `Lfg.NeverTargeted` | LFG.java:162-166 | A dungeon that no submission went to is credited nothing. |
| `Lfg.RunLfg` | LFG.java:143-186 | For an accepted configuration, min(T, H, D div 3) parties are formed and every one is handed to a dungeon. The leftovers are the final counters, with t < 1 ∨ h < 1 ∨ d < 3. Each dungeon ends idle, credited once per party it received, with those parties' times. The dungeons are distinct and every drawn time is in [t1, t2]. In the final status, the dungeons together show exactly one party per submission and the sum of all drawn times, which lies between count·t1 and count·t2. |
| `Lfg.HitsDistinct` | LFG.java:143-146 | In the pool of distinct dungeons, a dungeon occurs once if it is in the pool and not at all otherwise. |
| `Lfg.AllNone` | LFG.java:178-181 | Before any submission, the pool as a whole is credited nothing. |
| `Lfg.AllStep` | LFG.java:160-166 | One more submission raises the pool's credits by one party and its time for each occurrence of its target in the pool. |
| `Lfg.PoolTotals` | LFG.java:152-181 | When every submission went to a dungeon of a pool without repeats, the pool is credited exactly once per submission and with the sum of all drawn times. |
| `Lfg.TotalsFromCredits` | LFG.java:178-181 | The totals shown by the final status of the dungeons equal the pool's credits when each dungeon shows its own credits. |

Notes on `LFG.java`:
- `enterDungeon` and `isActive` are both `synchronized`. `enterDungeon` also
  holds the monitor for the whole stay, sleep included, and ends with
  `isActive = false`. A submitted run may start at once on a pool thread, but
  with the accepted times (at least 1 second) the party loop's `isActive()`
  call either runs before the run takes the monitor or waits until the run
  has finished. Either way it returns false.
- So the party loop only ever sees idle dungeons. The model keeps the
  dungeons' state fixed while the loop runs and executes the submissions
  afterwards. Every party of `RunLfg` is therefore handed to some dungeon,
  as in the Java program.

## Left out

- Threads, `Thread.join`, `ExecutorService` and `awaitTermination(20s)` are
  not modelled. This concurrency is replaced by atomic steps run in one
  order. `ServeInOrder` and `ExecuteAll` pick one serialisation. The 20-second
  deadline, after which the program reports while tasks may still run, is
  not modelled.
- Blocking in `Semaphore.acquire` is the `MustWait` admission and the
  `StillWaiting` outcome. The model does not wait for another run to release.
- `Thread.sleep` timing is not modelled. A tick is one step, and an
  interruption is an `Interruption` parameter. Re-setting the interrupt flag
  in the `catch` blocks has no effect on the modelled state.
- `java.util.Random` and `Collections.shuffle` are not modelled. Any value
  of the range and any permutation stands in for them.
- `DungeonRuns.DungeonQueue.DrawDuration`: returns some value in [t1, t2]
  and does not model the uniform distribution of `Random.nextInt`.
- `Lfg.ShuffleAndPick`: uses an arbitrary permutation and does not model the
  uniform shuffle.
- `DungeonRuns.DungeonQueue.ServeInOrder`: covers uninterrupted runs served
  one after another, with a free permit whenever there is a party, for any t1
  and t2. It does not cover interleavings of concurrent runs.
- `DungeonRuns.FormAndRunParties`: requires a free permit whenever the
  queues can form a party. Without one, the first party's thread blocks in
  `acquire` forever and the join never returns; that run is not modelled.
- `DungeonRuns.RunQueueProgram`: requires n ≥ 1 whenever at least one party
  forms. With n < 1 and a party formed, the semaphore has no permit: that
  party's thread blocks in `acquire` forever, `join` never returns and the
  program never ends. A run that never ends is not modelled. With no party
  formed, no thread starts and the case is covered.
- The getters `isActive` (as the party loop uses it), `getPartiesServed`,
  `getTotalTimeServed` and `getId` are plain field reads. The model reads
  the fields directly and has no members for them.
- Console output is not modelled. This covers `printDungeonStatus`,
  `printStatus`, `clearConsole` with its `ProcessBuilder` call, and the
  banners. The `totalTanks`/`totalHealers`/`totalDps` fields are only
  printed, so they are left out too.
- `Scanner` input and the retry loops are not modelled. Only the range
  checks that the loops enforce are kept.
- The late read of `partyCounter` in the thread lambda is not modelled. It
  is a data race, and `runDungeon` never uses the value. Parties carry the
  number printed when they are formed.
- Java's 32-bit `int` overflow is not modelled. This affects the counters,
  `partyCounter`, the totals and `t2 - t1 + 1`. All are unbounded integers
  here. (`time * 1000L` is `long` arithmetic and cannot overflow.)
- The model does not treat the `ConcurrentHashMap` and `synchronized` blocks
  as memory-model objects. Each locked block is one atomic step.

## Findings

| source | as written | input that shows it | evidently intended | confidence | as-written member | corrected member |
|---|---|---|---|---|---|---|
| LFGDungeonQueue.java:48-51 | `instanceSemaphore.release()` runs in `finally` even when `acquire()` threw `InterruptedException`, so it returns a permit that was never taken | capacity 1, a run whose thread is interrupted at `acquire`: afterwards 2 permits are free, and the next two runs are both admitted, so two runs are active at once | release only a permit that was acquired, so free + held permits always equal `maxInstances` | low, not executed: nothing in this program interrupts the run threads | `DungeonRuns.OverReleaseWitness` (with `DungeonRuns.DungeonQueue.ReleaseAsWritten`) | `DungeonRuns.DungeonQueue.RunDungeon` (with `DungeonRuns.DungeonQueue.Release`) |
