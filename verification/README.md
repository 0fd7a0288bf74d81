# Drone swarm protocol: a verified model

The system is a set of processes over shared memory: an unbounded number of drones, one operator
that spawns them and moves the base limit, and one commander that signals both. They share a drone
registry (slots, a stack of free indices, cached counters), one data semaphore with kernel undo, and
a FIFO holding two gate tokens. This project models that protocol as a state machine whose steps are
the locks, critical-section bodies, unlocks, gate operations and loop tests of the C code, with every
window between them a state of its own, and proves what holds in every reachable state, over every
schedule of processes, battery ticks and signals.

How the files fit together:

| file | content |
|---|---|
| `Limit.dfy` | the base limit: start value, doubling with clamp, C's truncating halving, powers of two |
| `Counting.dfy` | counting and summing over sequences |
| `Registry.dfy` | the registry as a value: add, update, delete, pid search, representation invariant |
| `Drones.dfy` | one drone: program counter machine, critical sections, gate, battery |
| `Swarm.dfy` | operator, commander, actions, schedules (`Exec`, `Run`) |
| `Invariant.dfy`, `Preservation.dfy` | the protocol invariant and its preservation by every action (`Safety`) |
| `Accounting.dfy` | counters, slots, free stack, ids, losses |
| `Progress.dfy` | mutual exclusion, the gate, deadlock freedom |
| `Capacity.dfy` | occupancy against the limit, physical presence, reservations |
| `Closedown.dfy` | what a limit at or below zero means for the rest of the run |
| `Latch.dfy`, `Overflow.dfy` | how fast the limit falls, the shutdown latch, the commander's plan; when the limit fits a C int |
| `Signals.dfy`, `MissionPlan.dfy` | how operator and commander work through their rounds under arbitrary interleaving |
| `Orders.dfy` | suicide orders and shutdown requests to drones |
| `Lifetime.dfy`, `Decisions.dfy` | battery and loading cycles; what drone, operator and commander decide |
| `Depletion.dfy`, `Departure.dfy` | what becomes of a drone whose battery empties in flight; which drones can leave the base |
| `Termination.dfy` | bounds on the steps left after shutdown, after the latch and after draining |
| `Staging.dfy`, `Docking.dfy`, `Decreases.dfy`, `Leaks.dfy` | chosen schedules; when docking is possible; how many decreases can happen; what shut-down drones leave behind |
| `ByteStack.dfy`, `SharedMemory.dfy`, `Simulation.dfy` | the byte-buffer stack, the in-place registry, and an imperative execution of schedules that refines the state machine |

A schedule is an arbitrary sequence of actions. An action whose process cannot move changes nothing,
so the quantification is over all interleavings, starvation included. Drones are numbered by spawn
order and that number serves as pid. Fields named as history in `Drone`, `Shared` and `State` (token,
inside, entries, changes, refusals, adds, subs, kills, incs, decs) never influence a step.

Where the code and its documentation disagree the model follows the code:

- the documentation lets an increase raise the limit "up to 2N"; the code stops at 2N - 1, and reaches
  that only for N >= 4 (`Limit.CeilingReachableIff`); for N <= 3 the limit is never positive and no
  drone ever docks (`Docking.DockingPossibleIff`);
- the documentation destroys a drone whose battery reaches 0 during flight; the code looks at the battery
  once per pass of the main loop. A drone that has that look still ahead never enters the base again and is
  gone within eight of its own steps (`Depletion.EmptyBeforeCheckIsLost`); a drone past it that holds a
  reservation can dock, and one battery tick later it passes its next check and flies on
  (`Depletion.EmptyPastCheckDocks`). For reservation holders the position in the pass decides exactly
  (`Depletion.EmptyDocksIff`), and some run saves a flat drone exactly for N >= 4
  (`Depletion.EmptyInFlightSavedIff`);
- the documentation ends the simulation when the limit is 0 and all drones are drained; the code does so, with
  every drone and the operator ending by themselves (`Termination.DrainedSwarmEnds`), but a drone that is shut
  down instead leaves its slot, its place and its reservation behind for good (`Leaks.QuiescentLeaks`,
  `Leaks.LeakIsPermanent`);
- the `id` field of a slot is copied before the id is assigned, so it is 0 in every slot of every reachable
  state (`Accounting.IndicesPartitioned`).

## Model

| member | source | states |
|---|---|---|
| `Preservation.Safety` | src/dron/dron.c:565-680 | The whole-protocol invariant holds in every reachable state: exact counters, slots and drones in bijection, per-program-point facts of every drone, one semaphore unit, two gate tokens |
| `Preservation.DroneEffect` | src/dron/dron.c:384-497 | Every step of a drone keeps its own program-point facts, touches at most its own slot or a free one, moves each counter by what its own standing changed, and raises occupancy only below the limit |
| `Accounting.CountersExact` | src/ipc/shm.c:66-136 | In-base, drone and reservation counters equal the BASE slots, the occupied slots and the processes (shut-down ones included) with an unconsumed reservation |
| `Accounting.ReservingNeverNegative` | src/ipc/shm.c:85-128 | Both "reserve space is negative" branches are unreachable |
| `Accounting.SlotAccessInBounds` | src/ipc/shm.c:69-135 | Every slot access of a critical section is in bounds and hits the drone's own slot or a free one; the push inside delete never fails |
| `Accounting.IndicesPartitioned` | src/ipc/shm.c:69-77 | Each index is on the free stack exactly once or owned by exactly one registered drone, never both; the id stored in a slot is always 0 |
| `Accounting.IdsAndLosses` | src/dron/dron.c:544-555 | Ids handed out equal drones present plus losses plus empty-stack refusals; each loss counter counts its drones; all ids are distinct |
| `Accounting.AdmissionsConserved` | src/ipc/shm.c:97-136 | Every admitted drone is still registered or counted as a loss |
| `Accounting.FilledFromZero` | src/main.c:355-359 | Until a drone is lost, the occupied slots are exactly those below the drone count: indices are given out as 0, 1, 2, ... |
| `Leaks.QuiescentLeaks` | src/dron/dron.c:647-678 | When all drones have exited, drone count, in-base count and reservation count equal the drones that were shut down, those shut down in the base and those shut down with a reservation; losses are the other admitted drones; both tokens are back |
| `Leaks.QuiescentRegistry` | src/dron/dron.c:330-406 | When all drones have exited, the registry is empty with every index free once, if and only if none of them ended by shutdown |
| `Leaks.LeakIsPermanent` | src/dron/dron.c:415-429 | The reservation of a drone that was shut down counts against the limit in every later state |
| `Leaks.LeakPossibleIff` | src/dron/dron.c:431-440 | Some run leaves a reservation behind if and only if N >= 4 |
| `Progress.MutualExclusion` | src/ipc/semaphore.c:59-78 | At most one process holds the data semaphore, and its value is 0 exactly then, with undo on exit included |
| `Progress.OnlyHolderWrites` | src/dron/dron.c:538-563 | Any action that changes the registry is taken by the semaphore's holder |
| `Progress.HolderReleases` | src/dron/dron.c:410-455 | A holder can always move, holds no gate token, and releases within two of its own steps |
| `Progress.GateHoldsTwo` | src/ipc/fifo.c:69-80 | Tokens in the FIFO plus tokens in drones' hands are always two; a token holder is in the gate and holds no semaphore |
| `Progress.GateWaitEnds` | src/ipc/fifo.c:230-263 | A drone blocked in read after a successful poll waits on exactly two other drones in the gate, and the next step of either unblocks it |
| `Progress.NoDeadlock` | src/dron/dron.c:308-328 | An unfinished process can move, or what it waits for is held by another process that can: no circular wait |
| `Progress.SystemNeverStuck` | src/dron/dron.c:647-676 | Some process can move if and only if some process is unfinished |
| `Progress.AdvisoryCheck` | src/operator/operator.c:360-379 | While the operator holds the semaphore its advisory check agrees with the registry |
| `Capacity.GrowthOnlyBelowLimit` | src/dron/dron.c:415-428 | Occupancy grows only below the current limit, by one, by a fresh reservation or a base-start registration |
| `Capacity.PublishMovesPlaces` | src/ipc/shm.c:81-95 | A published entry turns one reservation into one place; a published departure frees one place |
| `Capacity.NoGrowthWhileFull` | src/operator/operator.c:343 | While occupancy is at or above the limit, as after a halving, it never grows, over any schedule |
| `Capacity.OccupancyBelowPeak` | src/dron/dron.c:544-546 | Over any schedule occupancy never exceeds both its start value and the highest limit seen |
| `Capacity.CapacityRespected` | src/operator/operator.c:320-325 | Limit at most 2N - 1, occupancy below 2N and within capacity in every reachable state |
| `Capacity.WithinLimitIff` | src/main.c:323 | Without processed decreases occupancy stays within the limit, if and only if N >= 2 |
| `Capacity.PhysicalOccupancy` | src/dron/dron.c:437-450 | Drones physically inside never outnumber places taken plus promised, between gate and publication too |
| `Capacity.ReservationHolder` | src/dron/dron.c:389-419 | An unconsumed reservation means slot on MISSION, battery below 20, a loading cycle left; only lack of power can remove its holder |
| `Capacity.OccupancyWithinCount` | src/dron/dron.c:415-459 | In-base plus reserving never exceeds the registered drones |
| `Closedown.ClosedForever` | src/operator/operator.c:320-354 | Once the limit is at or below zero it stays so, no reservation or base start succeeds, and a drone flying without a reservation never charges again |
| `Closedown.EntriesAfterClosing` | src/dron/dron.c:415-459 | Base entries after that moment, over all drones, are at most the reservations held then |
| `Closedown.SmallSwarmsNeverDock` | src/main.c:323 | With at most three starting drones no drone ever reserves, enters or starts in the base |
| `Docking.DockingPossibleIff` | src/dron/dron.c:384-463 | Some schedule sees a drone enter the base if and only if N >= 4 |
| `Docking.LargeSwarmDocks` | src/dron/dron.c:384-463 | For N >= 4 a reachable state has a registered drone in the base after one entry |
| `Limit.BitsIsLog2` | src/operator/operator.c:343 | The bit count used below is floor(log2 L) + 1 |
| `Limit.HalvedTimesReachesZero` | src/operator/operator.c:343-354 | Repeated halving of a positive L reaches zero at exactly the (floor(log2 L) + 1)-th time |
| `Limit.CeilingReachableIff` | src/operator/operator.c:320-325 | Increases alone reach the ceiling 2N - 1 if and only if N >= 4 |
| `Latch.LatchExactly` | src/operator/operator.c:335-357 | From limit L > 0 without further increases the limit is at or below zero exactly at the (floor(log2 L) + 1)-th decrease, the last one processed, and the operator is bound to shut down |
| `Latch.DecreasesBounded` | src/operator/operator.c:312-357 | With a increases interleaved at most floor(log2 L) + 1 + a decreases are processed |
| `Latch.OperatorEndsOnlyIf` | src/operator/operator.c:351-354 | The operator is set to end, or has ended, only if it was asked to or the limit is at or below zero |
| `Decreases.DecreasesReachableIff` | src/operator/operator.c:335-357 | Without increases, k decreases are processed in some run if and only if k <= floor(log2 L) + 1 for a start limit L > 0, and k <= 1 otherwise |
| `Decreases.Attain` | src/operator/operator.c:335-357 | Each such k is attained by a run, and the last decrease leaves the base closed and the operator past its latch |
| `Decreases.StartsAtHalf` | src/main.c:323 | The limit L the system starts with satisfies 2(L + 1) <= N <= 2(L + 1) + 1 |
| `Latch.CommandedRun` | src/system_commander/system_commander.c:158-173 | If only the commander sends increases, at most 3 are processed, at most floor(log2 L) + 4 decreases (one if L <= 0), and the limit stays above -9 |
| `Latch.SuicideOrdersBounded` | src/system_commander/system_commander.c:175-200 | Over any schedule the commander orders at most ten suicides, one per round |
| `Latch.CommanderPlan` | src/system_commander/system_commander.c:259-268 | The phases come in order: no attack before the increases are over, no decrease before the attacks are over; unless shut down the commander has sent exactly three increases and then ordered exactly ten attacks, or found nobody |
| `Latch.SentRaisesFlag` | src/operator/operator.c:40-47 | Whatever action sends an increase or a decrease, from the commander or from outside, leaves the operator's flag for it raised |
| `Overflow.LimitFitsInt` | src/operator/operator.c:320 | In every reachable state doubling the limit fits a 32-bit int, if and only if 2 <= N <= 2^29 |
| `Overflow.LoneLimitFitsInt` | src/operator/operator.c:320 | For N = 1 doubling fits in every state with at most k processed increases, if and only if k <= 30 |
| `Termination.ShutdownBounded` | src/dron/dron.c:647-678 | A drone told to shut down takes at most 17 more steps of its own in any interleaving, after which it has exited |
| `Termination.OperatorShutdownBounded` | src/operator/operator.c:311-391 | An operator told to shut down takes at most 17 more steps of its own and spawns at most one more drone, in any interleaving |
| `Termination.CommanderShutdownBounded` | src/system_commander/system_commander.c:158-268 | A commander told to shut down takes at most 11 more steps of its own in any interleaving, after which it is done; unless asleep or amid an attack it takes exactly as many as its remaining phases have |
| `Termination.GlobalShutdownBounded` | src/dron/dron.c:647-678 | Once everybody has been told to shut down, all processes present take together at most the sum of their ranks, no more than 17 per drone plus 28; having taken that many all of them have ended |
| `Termination.LatchEndsOperator` | src/operator/operator.c:351-390 | Past the latch the limit is frozen, no further signal is processed and the operator ends within 10 own steps; it spawns no drone if the limit is at or below zero, at most one if it was shut down from outside |
| `Termination.ClosedSpawnsNothing` | src/operator/operator.c:366-379 | Once the limit is at or below zero and the starting drones are out, no schedule spawns another drone |
| `Termination.DrainedSwarmEnds` | README.md:74-77 | Limit at or below zero, operator past the latch, every drone exited or on a mission with neither charge nor reservation: no drone is spawned and operator and drones end within 13 steps per drone plus 10, in any interleaving |
| `Termination.OrderAnswered` | README.md:56-60 | A pending suicide order is looked at, or the drone has exited, within 16 of its own steps in any interleaving |
| `Lifetime.StepKeepsPotential` | src/dron/dron.c:456-494 | No step of a drone raises the battery potential or changes the battery: an entry trades a cycle for a charge, a departure happens only at full battery |
| `Lifetime.ChangesLeft` | src/dron/dron.c:271-289 | From any reachable state the battery changes at most as often as the potential says, each change using up one unit, in any interleaving |
| `Lifetime.BatteryBounded` | src/dron/dron.c:271-289 | Battery within 0..100 and at most 200 * Xi + 100 changes over a drone's life |
| `Lifetime.BatteryExact` | src/dron/dron.c:271-289 | Over any schedule, a battery b is min(100, b + k) after k ticks in the base and max(0, b - k) after k ticks on a mission, and nothing but ticks moves it |
| `Departure.DepartsIff` | src/dron/dron.c:465-497 | From every reachable state a registered drone in the base can be brought back to a mission with battery 100 if and only if no removal or exit is under way, no shutdown request and no order it cannot ignore comes before its next departure |
| `Lifetime.CyclesAccounted` | src/dron/dron.c:389-406 | Inward passages plus cycles left equal Xi, with the passage under way counted once; a decommissioned drone made exactly Xi entries |
| `Lifetime.DeparturesAreFull` | src/dron/dron.c:465-494 | A departing drone has battery 100 until its departure is booked |
| `Lifetime.CrossingIsCompleted` | src/dron/dron.c:308-328 | From the token read to the local bookkeeping no action ends or diverts a crossing |
| `Decisions.OnePassDecides` | src/dron/dron.c:647-672 | In every schedule without tick or signal to this drone, a pass of its main loop makes at most six tests of its own and then has taken the decision prescribed by the priority rules for the state at its top |
| `Decisions.RemovalJustified` | src/dron/dron.c:330-406 | Each removal in progress or done meets the condition of its reason, an empty battery for lack of power on a mission; reason "other" never occurs. Which flat drones are removed is stated by the `Depletion` rows |
| `Orders.FlagsExact` | src/dron/dron.c:330-352 | A drone's suicide flag rises exactly by an order to the running drone and falls exactly by its own look at it; its shutdown flag rises exactly by a request and never falls |
| `Orders.NothingUnasked` | src/dron/dron.c:330-352 | In every run a drone removed as a suicide had been ordered into the attack, and one that ended by shutdown had been told to |
| `Depletion.EmptyBeforeCheckIsLost` | src/dron/dron.c:359-382 | A drone on a mission with battery 0 and the power check of its pass ahead never enters the base in any schedule and exits by removal or shutdown within 8 own steps |
| `Depletion.EmptyPastCheckDocks` | src/dron/dron.c:431-459 | From every reachable state a flat drone past the check that holds a reservation can be brought into the base and charged, whoever holds semaphore and tokens; unless shut down it passes its next check |
| `Depletion.EmptyDocksIff` | src/dron/dron.c:359-459 | A flat drone on a mission with a reservation can still be saved if and only if it is past the power check of its pass |
| `Depletion.EmptyInFlightSavedIff` | README.md:41 | Some run saves a drone whose battery had reached 0 in flight, against the documented rule, if and only if N >= 4 |
| `Depletion.EmptyAfterClosingExits` | src/dron/dron.c:359-435 | Once the limit is at or below zero, a mission drone without reservation and with battery 0 exits within 13 own steps from wherever it stands, in any interleaving |
| `Decisions.AdmittedIff` | src/dron/dron.c:544-555 | A drone is admitted if and only if a slot is unoccupied and it starts on a mission or occupancy is below the limit; only that slot changes |
| `Decisions.ReservedIff` | src/dron/dron.c:410-435 | A drone goes to the gate if and only if it held a reservation or occupancy was below the limit, and then holds exactly one |
| `Decisions.StartingDrones` | src/operator/operator.c:79-89 | Exactly N mission drones are started unless the operator is shut down first |
| `Decisions.SpawnedPristine` | src/dron/dron.c:244-256 | Only the operator starts drones, one at a time, with battery 100, all loading cycles, no flag raised and charging exactly when they start in the base |
| `Decisions.PickSpec` | src/system_commander/system_commander.c:142-156 | The commander finds nobody if and only if no drone is registered, else the registered drone of lowest index |
| `Decisions.Isolation` | src/system_commander/system_commander.c:110-123 | An action of or to one drone leaves every other process alone; the operator leaves existing drones and the commander alone; the commander touches at most the drone it orders and the operator's flag for the signal it sends |
| `Signals.IncreaseRound` | src/operator/operator.c:312-333 | In every schedule in which the operator takes its four steps from a pending increase at limit L, exactly one increase is processed, the limit becomes 2L below N and 2N - 1 from N on, and the flag is set again only by a further signal |
| `Signals.DecreaseRound` | src/operator/operator.c:335-357 | Same for a decrease and five steps, from limit L to M: 2M <= L <= 2M + 1 for L >= 0 and 2M - 1 <= L <= 2M for L <= 0, and shutdown is latched exactly when M is not positive, external requests aside |
| `Signals.ReplenishRound` | src/operator/operator.c:360-379 | In every schedule with the four steps of a check, one fresh base drone is added if there was room at the moment the operator looked under the semaphore, and none otherwise |
| `Signals.CheckAnswered` | src/operator/operator.c:311-379 | From any operator state, with or without signals pending, the operator has looked for room under the semaphore or has ended within one round, 17 of its own steps once the starting drones are out |
| `Signals.SignalAnswered` | README.md:56-60 | A pending increase or decrease is processed, or the operator has ended, within 17 of its own steps once the starting drones are out, whatever is interleaved |
| `MissionPlan.CommanderReads` | src/system_commander/system_commander.c:142-156 | While the commander holds the semaphore its pick is the pid in the lowest occupied slot and the limit it has read is the current one |
| `MissionPlan.WaitRound` | src/system_commander/system_commander.c:158-183 | Unless shut down, the commander tests, waits, sleeps uninterrupted and then acts in each increase and attack round, in this order and in any interleaving; an increase it sends raises the operator's flag |
| `MissionPlan.SubtractRound` | src/system_commander/system_commander.c:234-251 | In every schedule with the commander's four steps from a re-read on, it sends exactly one decrease, with the operator's flag up at that moment |
| `MissionPlan.ReadRound` | src/system_commander/system_commander.c:219-257 | Every look at the limit decides: within 11 own steps, interrupted sleeps aside, the plan has ended with nothing more sent if the limit was at or below zero, else exactly one more decrease has been sent in the next round |
| `MissionPlan.PlanEnds` | src/system_commander/system_commander.c:219-268 | A commander that ends without being shut down had, at some moment under the semaphore, found no drone registered or read a limit at or below zero |
| `MissionPlan.PickRound` | src/system_commander/system_commander.c:175-200 | In every schedule with the four steps of a pick, it looks once under the semaphore; an empty registry at that moment ends the plan, otherwise one order is counted and the next round begins |
| `MissionPlan.OrderDelivered` | src/system_commander/system_commander.c:186-198 | The order goes to a drone that has had a slot and sets its flag unless its process has exited; no other drone changes |
| `Registry.AddConsistent` | src/ipc/shm.c:66-78 | Adding keeps the registry consistent and fails exactly when every slot is occupied |
| `Registry.DeleteConsistent` | src/ipc/shm.c:97-136 | Deleting an occupied slot keeps the registry consistent and gives the index back |
| `Registry.ReusedFirst` | src/ipc/shm.c:66-136 | An index given back is the next one given out |
| `Registry.UpdateKeepsBaseCountIff` | src/ipc/shm.c:81-95 | A location update keeps the base counter exact if and only if the new location is BASE exactly when the old one was MISSION; the operation itself does not ensure this |
| `Registry.FirstPidSpec` | src/ipc/shm.c:139-148 | The pid search returns the lowest occupied slot's pid, -1 if there is none |
| `ByteStacks.ByteStack.Init` | src/data_structures/stack.c:20-28 | Initialisation fails exactly on a zero capacity or element size, else gives the empty stack |
| `ByteStacks.ByteStack.Push` | src/data_structures/stack.c:40-48 | Push appends one element unless full, writing only the next element's bytes, inside the buffer |
| `ByteStacks.ByteStack.Pop` | src/data_structures/stack.c:50-58 | Pop returns and removes the last element unless empty |
| `ByteStacks.ByteStack.Top` | src/data_structures/stack.c:60-67 | Top returns the last element unless empty |
| `ByteStacks.ByteStack.IsFull` | src/data_structures/stack.c:35-38 | Full exactly when the elements reach the capacity |
| `ByteStacks.ByteStack.IsEmpty` | src/data_structures/stack.c:30-33 | Empty exactly when there are no elements |
| `ByteStacks.PushThenPop` | src/data_structures/stack.c:40-58 | Push then pop returns the same bytes and restores all elements |
| `ByteStacks.SeedIndices` | src/main.c:355-359 | Seeding terminates with the indices stacked so that pops yield 0, 1, 2, ... |
| `SharedMemories.SharedMemory.constructor` | src/main.c:319-359 | Start-up memory represents the initial registry |
| `SharedMemories.SharedMemory.AddDrone` | src/ipc/shm.c:66-78 | In place, does to the memory what the value operation does to the registry it represents |
| `SharedMemories.SharedMemory.UpdateLocation` | src/ipc/shm.c:81-95 | Same, for the location update |
| `SharedMemories.SharedMemory.DeleteDrone` | src/ipc/shm.c:97-136 | Same, for deletion, including the push onto the byte stack |
| `SharedMemories.SharedMemory.GetPid` | src/ipc/shm.c:139-148 | The search loop returns the pid of the lowest occupied slot |
| `Simulations.Simulation.RegisterSection` | src/dron/dron.c:544-555 | The registration section on memory refines its step |
| `Simulations.Simulation.ReserveSection` | src/dron/dron.c:415-429 | The reservation section on memory refines its step |
| `Simulations.Simulation.DroneStep` | src/dron/dron.c:308-497 | Every drone step with registry, semaphore and tokens in memory refines the state machine's step; tests and bookkeeping update the drone's record |
| `Simulations.Simulation.OpStep` | src/operator/operator.c:311-388 | Each operator step with the limit and the counters in memory refines the abstract step; the operator's own variables are a record updated as the abstract step does |
| `Simulations.Simulation.CmdStep` | src/system_commander/system_commander.c:158-268 | Each commander step with the pid search and the limit read on memory refines the abstract step; the commander's own variables are a record updated as the abstract step does |
| `Simulations.Simulation.RunSchedule` | src/main.c:537-590 | Executing any schedule on byte stack and slot array ends in the state of the abstract schedule and keeps the invariant |

## Left out

- Drone, operator and commander as mutable objects: they are records updated by functions, in the simulation too (`OpStep`, `CmdStep`, `LocalStep`); in-place update is modelled for the registry, the stack and the simulation's own fields, not for each process's private memory.
- Interleaving inside a critical-section body: a body is one step, which `Progress.MutualExclusion` and `Progress.OnlyHolderWrites` justify.
- The four local assignments after a published move are one step; the battery thread sees only the charging flag among them.
- Retry loops around interrupted system calls (`semop`, `poll`, `read`, `write`, `nanosleep`): only the call that completes is a step.
- System-call errors, failed forks, forced kills, and pid reuse by the operating system.
- Null pointer arguments of the stack functions and size overflow in the byte count.
- Overflow of the counters other than the limit, which are unbounded integers here.
- The configuration segment and its own semaphore, keys, attaching and detaching, FIFO creation paths, and the main process's clean-up.
- Wall-clock time: sleeps, poll timeouts and charge intervals are replaced by arbitrary scheduling; a poll may time out whenever the FIFO is empty.
- Fairness and completion of the whole mission plan: the plan may abort when no drone is found, and nothing in the code makes the gate or semaphore fair.
- The documented one-direction rule of the gate: the code has one undirected pool of tokens.
- Logging, reports as text, command-line parsing beyond the resulting ranges, and the unused gate semaphore and decrease step.
