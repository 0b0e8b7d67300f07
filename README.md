# Group appointment simulation: the service engine in Dafny

This project models the epoch-stepped service engine of GroupApptSimulations, a
discrete-time simulation of a multi-class healthcare waitlist. Patients arrive, wait
in a shared waitlist partitioned by pathway (class), are admitted into capacity-bound
servers, and are discharged once their course of appointments is complete. Two parts
are modelled.

- **The group server** (`group_server.dfy`, module `GroupServers`) is a slot serving one
  cohort of at most `max_caseload` patients of one pathway:
  - an empty slot admits a cohort from the waitlist and resets its session countdown;
  - every epoch, each member is advanced once, by rotating the deque front to back;
  - the countdown drops by one each epoch;
  - when the countdown reaches zero, the whole cohort is discharged, stamped with the
    epoch.

  The class `GroupServer` mutates its caseload in place with the source's loops. Its
  `ProcessEpoch` is proved to perform exactly `Step`, a pure function on a `Snapshot`
  of the slot and the two shared registers. The cohort's promises are lemmas about
  `Step` and its iterate `StepsFrom`:
  - the occupancy bound;
  - the countdown reset;
  - membership frozen mid-countdown;
  - conservation of patients;
  - the full lifecycle: a cohort formed at epoch `e` leaves at `e + L - 1`, after `L`
    lock-step advances.
- **The simulation driver** (`simulation.dfy`, module `Simulations`, with the pure plans
  in `simulation_plans.dfy`) is the class `Simulation`. It owns:
  - the configuration;
  - the list of plain servers and the list of group servers;
  - the admitted counter, with the ghost history `arrived` of every patient
    `generate_arrivals` created;
  - the cumulative attendance table, a 2×4 `array2`.

  `GenerateServers` is proved to build exactly `Layout(Plan(), ...)`: pathway-major,
  size-minor, with `rint(n_group_servers[i] * group_size_props[j])` copies of each
  server. Each epoch of `Run` performs, in this order:
  - the arrivals, which join the waitlist and are counted as admitted;
  - every plain server's turn, in index order, driven by a caller-supplied `Choice`;
  - every group server's `process_epoch`, in index order, each on the registers the
    previous one left: the group servers and the registers end exactly as `Sweep`
    of the state the sweep began in, and the sweeps of consecutive epochs chain
    (`Chained`);
  - when logging is on, one waitlist row `(epoch, waitlist length)`, returned to the
    caller.

  `Run` is proved to count every arrival as admitted (`NAdmitted` is the length of
  `arrived`), and to keep every admitted patient on the waitlist, in a plain or group
  caseload, or on the discharge list: `NWaitlist() + InService() + NDischarged()` grows
  by exactly the number of arrivals. Every patient added to the discharge list carries
  a discharge time. A ghost event trace equals `Schedule(n_epochs, ...)`: the turns
  are appended inside the server loops next to each call, and each epoch's `Arrivals`
  and `Sample` events next to `generate_arrivals` and `stream_waitlist`.

Supporting modules:

- `rounding.dfy` holds `rint` under the default rounding mode (round to nearest, ties
  to even), computed on exact reals.
- `patients.dfy` holds the patient record, with stand-ins for `process_patient` and
  `set_discharge_time`.
- `registers.dfy` holds the waitlist and the discharge list with the smallest
  contracts the engine relies on. Their source is not part of this model.
- `server.dfy` holds the plain server. Its admission and discharge policy is replaced by
  a caller-supplied `Choice`: which members leave, and how many patients it may take
  on. Its turn keeps the contract the simulation relies on.

Random draws are inputs. Each arriving patient is a `Draw(cls, age)`. The arrival count
of an epoch is the number of draws supplied for it.

## Model

| member | source | states |
|---|---|---|
| Rounding.Rint | src/GroupServer.cpp:14 | `rint`: the result is within one half of the operand, and even whenever it is exactly one half away |
| Rounding.RintUnique | src/simulation.cpp:121 | those two properties determine `rint` completely, so the rounded server counts and session counts are well defined |
| Rounding.RintOfInteger | src/GroupServer.cpp:14 | rounding an integral value (a group-size effect of zero) returns it unchanged |
| Patients.AdvanceAll | src/GroupServer.cpp:46-53 | every member is advanced once at the epoch, in caseload order, nobody added or dropped |
| Patients.StampAll | src/GroupServer.cpp:27-35 | every member gets discharge time `epoch`, order kept |
| Patients.AdvancedFor | src/GroupServer.cpp:40-57 | each member's history is extended by exactly the epochs `e .. e + k - 1` |
| Patients.AdvanceAdvancedFor | src/GroupServer.cpp:46-53 | one more lock-step advance of a cohort extends every member's history by the next epoch |
| Registers.TotalUpdate | src/simulation.cpp:182 | replacing one lane changes the waitlist length by that lane's change in length |
| Registers.TotalZero | src/simulation.cpp:182 | the waitlist length is zero exactly when every lane is empty (both directions) |
| Registers.AvailableNonEmpty | src/GroupServer.cpp:41 | availability for one pathway implies the waitlist is non-empty, so the pop after the guard is defined |
| Registers.FirstNonEmpty | src/GroupServer.cpp:42 | the lane the next patient comes from is non-empty and every lane before it is empty |
| Registers.Dequeue | src/GroupServer.cpp:42 | handing out the next patient removes exactly the front of that lane, lowers the length by one, and leaves the other lanes alone |
| Registers.DequeueN | src/simulation.cpp:166 | handing out `n` patients one after the other keeps the lane count and lowers the waitlist length by exactly `n` |
| Registers.Fronts | src/simulation.cpp:166 | the patients handed out by `n` successive pops number exactly `n` |
| Registers.FrontsSnoc | src/simulation.cpp:166 | handing out one patient more appends the front of the remaining lanes to those handed out, and dequeues those lanes once more |
| Registers.Enqueue | src/simulation.cpp:142 | `add_patient` puts the patient at the back of its pathway's lane, raises the length by one, and leaves the other lanes alone |
| Registers.EnqueueAllSpec | src/simulation.cpp:135-144 | adding a batch raises the length by the batch size, and each lane receives exactly the batch's patients of its pathway, at its back, in batch order |
| Registers.Waitlist.constructor | src/simulation.cpp:317 | a fresh waitlist has exactly the requested number of lanes, one per class, and length zero |
| Registers.Waitlist.AddPatient | src/simulation.cpp:142 | the new lanes are `Enqueue` of the old ones, and the length grows by one |
| Registers.Waitlist.Pop | src/GroupServer.cpp:42 | returns `Front` of the old lanes, leaves `Dequeue` of them, and the length drops by one |
| Registers.DischargeList.constructor | src/simulation.cpp:316 | a fresh discharge list is empty |
| Registers.DischargeList.AddPatient | src/GroupServer.cpp:32 | append only: the list is the old one followed by the patient |
| Servers.Server.constructor | src/simulation.cpp:116 | a plain server has capacity `max_caseload`, is empty, and shares the simulation's waitlist and discharge list |
| Servers.LeavingStaying | src/simulation.cpp:166 | in a plain server's turn every member either leaves or stays, never both: the two parts make up the caseload, as a multiset and in number |
| Servers.TookSnoc | src/simulation.cpp:165-167 | the chain of waitlists through the plain servers' turns extends by one turn: server `n` took its newcomers from the waitlist the servers before it left |
| Servers.Released | src/simulation.cpp:165-167 | everything the plain servers send to the discharge list in one epoch carries a discharge time |
| Servers.Server.ProcessEpoch | src/simulation.cpp:166 | a plain server's turn under its choice: the chosen members go to the discharge list stamped with the epoch, in caseload order; the others stay in order, followed by at most the chosen number of newcomers, which are the next patients popped from the waitlist as it stood, and the waitlist loses exactly those (`Turned`); waiting plus in service plus discharged is unchanged; occupancy stays equal to the caseload length and within capacity |
| Servers.Server.Release | src/simulation.cpp:166 | the chosen members are appended to the discharge list stamped with the epoch, the others stay in order, and no patient is lost |
| Servers.Server.TakeOn | src/simulation.cpp:166 | newcomers join the back of the caseload, at most the chosen number and never past capacity; they are exactly the next patients of the waitlist in pop order (`Fronts` of the old lanes), and the lanes become the old lanes with exactly those popped (`DequeueN`); it stops short of the chosen number only at capacity or with the waitlist empty |
| GroupServers.AdmitSpec | src/GroupServer.cpp:40-43 | admission only appends to the cohort and never passes the bound; it stops only at the bound or when the pathway has nobody available; it moves patients from the waitlist without losing any |
| GroupServers.StepAdmission | src/GroupServer.cpp:40-45 | admission happens only into an empty slot; the cohort is within capacity; an empty slot ends at capacity or with no patient of the pathway available; an occupied slot keeps its members and leaves the waitlist untouched |
| GroupServers.StepCountdown | src/GroupServer.cpp:40-54 | an empty slot resets the countdown to the stored session count even when nobody is admitted; every epoch lowers it by exactly one |
| GroupServers.StepMembers | src/GroupServer.cpp:46-57 | every member is advanced once in order; nobody leaves while the countdown is nonzero; at zero everybody leaves in caseload order with discharge time `epoch` |
| GroupServers.StepFrozen | src/GroupServer.cpp:38-58 | mid-countdown, membership and order are unchanged and neither register is touched |
| GroupServers.StepConserves | src/GroupServer.cpp:38-58 | waiting plus in service plus discharged is the same before and after an epoch |
| GroupServers.InitialCountdownIgnored | src/GroupServer.cpp:15 | the raw `path_len` stored in `n_appts` at construction is never observed: an empty slot overwrites it first |
| GroupServers.FormingEpoch | src/GroupServer.cpp:40-53 | the forming epoch admits a cohort, advances it once and leaves `L - 1` sessions |
| GroupServers.FormingEpochDischarges | src/GroupServer.cpp:40-57 | with a stored session count of one, the forming epoch also discharges the cohort |
| GroupServers.ServingEpoch | src/GroupServer.cpp:46-54 | an epoch of a cohort in service before its last session: one more advance, one session fewer, registers untouched |
| GroupServers.LastSession | src/GroupServer.cpp:46-57 | the `L`-th epoch advances the cohort once more, then discharges all of it at that epoch and leaves the slot empty |
| GroupServers.CohortInService | src/GroupServer.cpp:40-54 | for `1 <= k < L`, or any `k` when `L <= 0`, after `k` epochs the slot holds the same members, each advanced at every epoch `e .. e + k - 1`, with `L - k` sessions left |
| GroupServers.CohortLifecycle | src/GroupServer.cpp:40-57 | with `L >= 1`, a cohort formed at `e` is discharged at `e + L - 1`: all of it and nobody else, each member advanced exactly `L` times, and the slot is empty again |
| GroupServers.CohortNeverDischarged | src/GroupServer.cpp:54-57 | with a stored session count of zero or less, the countdown goes negative and the cohort is never discharged |
| GroupServers.RotateOne | src/GroupServer.cpp:48-52 | one turn of the rotation moves the advanced front member to the back |
| GroupServers.TurnConserves | src/simulation.cpp:169 | one group server's turn creates and loses no patient over the waitlist, all group caseloads and the discharge list; the discharge list only grows, and every patient it gains carries the epoch |
| GroupServers.SweepConserves | src/simulation.cpp:168-170 | the sweep over all group servers creates and loses no patient |
| GroupServers.SweepDischarges | src/simulation.cpp:168-170 | during the sweep the discharge list only grows, and stays stamped if it was |
| GroupServers.SweepPending | src/simulation.cpp:168-170 | a group server the sweep has not reached yet is untouched |
| GroupServers.SweepSlot | src/simulation.cpp:168-170 | each group server the sweep passed performed `Step` exactly once, from its own earlier state, on the registers the servers before it left |
| GroupServers.ChainedSnoc | src/simulation.cpp:163-170 | each epoch's sweep starts from the group servers the previous epoch's sweep left |
| GroupServers.GroupServer.constructor | src/GroupServer.cpp:9-16 | stores the path and capacity, stores the session count `rint(path_len * (1 + effect))`, sets the countdown to the raw `path_len`, and starts empty on the shared registers |
| GroupServers.GroupServer.ResetNAppts | src/GroupServer.cpp:22 | the countdown becomes the stored session count; nothing else changes |
| GroupServers.GroupServer.DecrementNAppts | src/GroupServer.cpp:25 | the countdown drops by exactly one; nothing else changes |
| GroupServers.GroupServer.AddFromWaitlist | src/GroupServer.cpp:42 | the waitlist's next patient, whatever its pathway, joins the back of the caseload, and occupancy grows by one |
| GroupServers.GroupServer.DischargePatients | src/GroupServer.cpp:27-35 | the caseload is emptied front first onto the discharge list, each patient stamped with `epoch`, and occupancy drops by the number moved |
| GroupServers.GroupServer.AdmitBatch | src/GroupServer.cpp:40-45 | the slot and registers become `AfterAdmission` of their old value, and the occupancy invariant is kept |
| GroupServers.GroupServer.AdvanceMembers | src/GroupServer.cpp:46-53 | after the full rotation the caseload is in its old order, every member advanced once |
| GroupServers.GroupServer.ProcessEpoch | src/GroupServer.cpp:38-58 | the slot and registers become `Step` of their old value; occupancy equals the caseload length and stays within capacity; no patient is created or lost |
| SimulationPlans.ArrivalAge | src/simulation.cpp:101-111 | draws in [0.5, 2.5] are kept, lower ones become 0.25 and higher ones 2.5, so every age lies in [0.25, 2.5] |
| SimulationPlans.ArrivalAgeGap | src/simulation.cpp:104-107 | no age falls strictly between 0.25 and 0.5 |
| SimulationPlans.ArrivalAgeMonotone | src/simulation.cpp:101-111 | an older draw never yields a younger arrival |
| SimulationPlans.RunningSumMonotone | src/simulation.cpp:90-98 | with non-negative probabilities each cumulative row is non-negative and non-decreasing |
| SimulationPlans.RunningSumDifferences | src/simulation.cpp:90-98 | consecutive differences of a cumulative row give back the probabilities |
| SimulationPlans.Copies | src/simulation.cpp:121-125 | the innermost loop makes `max(0, n)` copies of one server and nothing else |
| SimulationPlans.CopiesOccurrences | src/simulation.cpp:121 | a run of copies holds its server exactly `max(0, n)` times and no other |
| SimulationPlans.PathwayLayoutEntries | src/simulation.cpp:120-126 | every server of a pathway's block has that pathway, a size up to the bound, and the pathway's length and that size's effect |
| SimulationPlans.PathwayLayoutSorted | src/simulation.cpp:120-126 | within a pathway, servers come by non-decreasing size |
| SimulationPlans.PathwayLayoutOthers | src/simulation.cpp:119-127 | a pathway's block holds no server of another pathway |
| SimulationPlans.PathwayLayoutMultiplicity | src/simulation.cpp:120-126 | a pathway's block holds its server of size `j + 1` exactly the rounded count of times |
| SimulationPlans.LayoutEntries | src/simulation.cpp:119-127 | every generated group server is the server `GroupServer(i, pathways[i], j + 1, group_size_effects[j])` of some pathway `i` and size index `j` |
| SimulationPlans.LayoutSorted | src/simulation.cpp:119-127 | group servers are created pathway-major in index order, and size-minor |
| SimulationPlans.LayoutMultiplicity | src/simulation.cpp:119-127 | the layout holds the server of pathway `i` and size `j + 1` exactly `rint(n_group_servers[i] * group_size_props[j])` times when that is positive, and otherwise not at all |
| SimulationPlans.EpochEventsSpec | src/simulation.cpp:164-171 | one epoch holds only its own events, in strictly increasing order (arrivals, plain servers, group servers, sample), and all of them |
| SimulationPlans.ScheduleEntries | src/simulation.cpp:161-172 | every event of a run belongs to an epoch below `n_epochs` and to an existing server; samples occur only when logging is on |
| SimulationPlans.ScheduleSorted | src/simulation.cpp:161-172 | a run performs its events in strictly increasing order, so none twice |
| SimulationPlans.ScheduleComplete | src/simulation.cpp:161-172 | every event of the first `n_epochs` epochs occurs |
| Simulations.DistinctSnoc | src/simulation.cpp:122-124 | a newly created server appended to the list keeps the group servers free of repetitions |
| Simulations.Simulation.constructor | src/simulation.cpp:27-71 | stores the configuration; sets `n_classes` to the number of pathways; keeps the shared waitlist and discharge list; makes the attendance table a fresh 2×4 array holding the running sums of the input rows; starts with no servers, `n_admitted` at 0 and no arrivals |
| Simulations.Simulation.SetAttProbs | src/simulation.cpp:90-98 | entry `[i][j]` of the table becomes `p[i][0] + ... + p[i][j]` for every `i < 2` and `j < 4` |
| Simulations.Simulation.NewPatient | src/simulation.cpp:136-141 | the patient has arrival epoch `epoch`, the drawn class as pathway, the pathway length `pathways[class]` and a clamped age; it is not yet advanced or discharged |
| Simulations.Simulation.ArrivingPatients | src/simulation.cpp:135-144 | one patient per draw, in draw order |
| Simulations.Simulation.Enlist | src/simulation.cpp:135-144 | the waitlist grows by exactly the number of draws; each lane receives exactly that batch's patients of its pathway, in order, at its back |
| Simulations.Simulation.Arrived | src/simulation.cpp:163-164 | the patients created over the first `n` epochs number exactly the draws of those epochs, and each arrived in one of them |
| Simulations.Simulation.GenerateArrivals | src/simulation.cpp:130-146 | `n_admitted` grows by exactly the arrival count and the new patients, tagged `epoch`, join the arrival history; the waitlist receives exactly those patients; the patients held overall grow by that count; no server changes |
| Simulations.Simulation.PrefillWaitlist | src/simulation.cpp:148-159 | `n_patients` patients tagged with epoch 0 join the waitlist, and `n_admitted` is unchanged |
| Simulations.Simulation.GenerateServers | src/simulation.cpp:113-128 | appends exactly `n_servers` fresh plain servers of capacity `max_caseload` on the shared registers, then exactly the group servers of `Layout`, fresh, built and empty, and keeps what existed before |
| Simulations.Simulation.AddServers | src/simulation.cpp:115-117 | exactly `max(0, n_servers)` fresh, empty plain servers of capacity `max_caseload` are appended |
| Simulations.Simulation.AddPathway | src/simulation.cpp:120-126 | pathway `i`'s block of group servers is appended, size by size |
| Simulations.Simulation.AddCopies | src/simulation.cpp:121-125 | `rint(n_group_servers[i] * group_size_props[j])` fresh servers of pathway `i` and size `j + 1` are appended, none when that is not positive |
| Simulations.Simulation.AppendServer | src/simulation.cpp:122-124 | one fresh, empty group server, built for its spec on the shared registers, joins the end of the list |
| Simulations.Simulation.StreamWaitlist | src/simulation.cpp:221-223 | the row written is the epoch and the current waitlist length |
| Simulations.Simulation.ProcessPlainServer | src/simulation.cpp:166 | plain server `i` keeps what its choice says of its caseload, and its newcomers are the next patients popped from the waitlist as it stood, which loses exactly those; its leaving members are appended to the discharge list stamped with the epoch; no other server changes; the patients held overall are unchanged |
| Simulations.Simulation.ServePlainServers | src/simulation.cpp:165-167 | every plain server takes its turn once, in index order: a chain of waitlists runs from the one before the loop to the one after it, and server `k` takes its newcomers from link `k` and leaves link `k + 1` (`Took`); the trace records exactly those turns, the discharge list gains exactly their leaving members server by server, the group servers are untouched, and no patient is created or lost |
| Simulations.Simulation.ProcessGroupServer | src/simulation.cpp:169 | server `i` and the registers take the state `Step` gives on the registers as they stand (`Turn`); no other group server and no plain server changes |
| Simulations.Simulation.ServeGroupServers | src/simulation.cpp:168-170 | every group server processes the epoch once, in index order, each on the registers the previous one left: the group servers and registers end as `Sweep` of the state before; the trace records exactly those turns; the plain caseloads are untouched; no patient is created or lost |
| Simulations.Simulation.ServeEpoch | src/simulation.cpp:163-170 | one epoch up to the sample, in the source's order (`Prepared`): the arrivals join the history and are held, and they join the waitlist first; the plain servers then take their turns on that waitlist, chained in index order, each keeping what its choice says; the group sweep begins with the group servers as they were before the epoch, on the waitlist the last plain server left and on the old discharge list followed by the plain servers' released members, and ends in the current state; the discharge list only grew; the trace is arrivals, plain turns, group turns |
| Simulations.Simulation.ServeEpochOf | src/simulation.cpp:163-170 | the epoch performed by `ServeEpoch` extends the state after the earlier epochs (`Served`) by that epoch's arrivals and chained sweep; the trace is that epoch's events up to the sample |
| Simulations.Simulation.RunEpoch | src/simulation.cpp:163-172 | one pass of the loop extends what holds after `e` epochs to `e + 1`: the arrivals, the patients held, the chained sweeps, the trace by exactly that epoch's events, and the log by that epoch's row when logging |
| Simulations.Simulation.ServedSnoc | src/simulation.cpp:163-170 | one more epoch's arrivals and sweep extend the state after the earlier epochs |
| Simulations.Simulation.RanForSnoc | src/simulation.cpp:163-172 | one more epoch's events and log row extend what holds after the earlier epochs |
| Simulations.Simulation.Run | src/simulation.cpp:161-176 | after the run: the arrival history grew by every draw and `NAdmitted()` by their number; `NWaitlist() + InService() + NDischarged()` grew by the same number; the discharge list only grew; the group servers went through one chained sweep per epoch; the trace is `Schedule(n_epochs, ...)`; one row per epoch, numbered `0 .. n_epochs - 1`, was returned exactly when logging is on |
| Simulations.Simulation.NAdmitted | src/simulation.cpp:178 | the number of patients `generate_arrivals` created |
| Simulations.Simulation.NDischarged | src/simulation.cpp:180 | the length of the shared discharge list, at least its length at construction, every patient added since carrying a discharge time |
| Simulations.Simulation.NWaitlist | src/simulation.cpp:182 | the number of waiting patients over all lanes, zero exactly when every lane is empty |

## Left out

- Parquet/Arrow output is left out: the constructor's sink setup, `write_parquet` and
  the file behind `stream_waitlist`. `StreamWaitlist` returns its row, and `Run` returns
  the rows in order.
- `main`, command-line parsing and `utilization_to_servers` are configuration plumbing
  outside the engine, and are not modelled.
- The random number generator and its distributions (Poisson count, class, normal age)
  are replaced by caller-supplied draws. The class draw is required to index the
  configuration vectors (`DrawOk`).
- Simulations.Simulation.NewPatient: the attendance table and the generator handed to
  the `Patient` constructor are not stored. The patient's stochastic outcome model is
  not part of this model.
- Floating point is not modelled. `rint` is computed on exact reals, and
  `group_size_props`, `group_size_effects` and the attendance probabilities are `real`.
  Single-precision rounding of `path_len * (1 + group_size_effect)` is therefore not
  captured.
- Wall-clock timing and console output in `run` are side effects only.
- `Server::process_epoch` (the individual-server policy) is not modelled; its contract
  is assumed. Its decisions are replaced by a caller-supplied `Choice` per server and
  epoch: which members leave, and how many patients it may take on. The plain
  server's members are not advanced by `process_patient` in this model.
- `Patient::process_patient` and `set_discharge_time` are stand-ins that record the
  epoch of each step and the discharge time.
- The waitlist's eligibility rules and priority order are not modelled:
  - availability for a pathway means its lane is non-empty, whatever the epoch;
  - `Pop` hands out the front of the first non-empty lane and takes no pathway.

  A group server can therefore receive a patient of another pathway when the
  availability guard holds, because the pop does not take the guard's pathway.
- GroupServers.GroupServer.AddFromWaitlist: `Server::add_from_waitlist` is not
  modelled; its contract is assumed: pop one patient, append it to the caseload, and
  add one to `n_patients`.
- The countdown is not kept non-negative. With a stored session count of zero or less it
  passes zero before the test and never fires (`CohortNeverDischarged`). The model
  follows the code here.
- The group server's capacity test compares against `max_caseload` converted to a
  64-bit `size_t` (`SizeBound`), so a negative capacity acts as a huge one.
- Servers.Server.TakeOn: the plain server's capacity is taken as a signed int
  (`|caseload| < maxCaseload`), so a negative `max_caseload` admits nobody there. The
  plain server's policy is not part of this model, and `Valid` lets an empty plain
  server have any capacity.
- 32-bit overflow of `n_admitted` and of the countdown is not modelled: integers are
  unbounded.
- `write_statistics` is an empty stub and is not modelled. `set_probs` is never called
  by the engine.
- Simulations.Simulation.constructor follows the constructor definition in
  src/simulation.cpp, which takes `group_size_effects`. The declaration in
  include/Simulation.h does not. `max_ax_age`, `arr_lam`, `probs` and `age_params` only
  feed the random draws or are unused, and are not stored.
- Simulations.Simulation.GenerateServers requires `WellFormed(Plan())`: `pathways` and
  `group_size_effects` are at least as long as the vectors indexed alongside them. The
  source indexes them unchecked.
- Simulations.Simulation.Run states its postcondition through the predicate `RanFor`
  after all `n_epochs` passes, and through the getters. The event trace and the
  per-epoch sweep states are ghost. What happens to the waitlist inside one epoch
  (arrivals first, then the plain servers' pops in order, then the sweep) is stated by
  `ServeEpoch` through `Prepared`; `Run`'s postcondition keeps only the chained sweeps
  and the counts, not the per-epoch waitlists.
