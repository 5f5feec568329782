# Poncos: slot controller, bandwidth rebalancer and scheduler runs

Poncos co-schedules jobs on machines with two slots each. This project models
the slot controller, the VM controller, the bandwidth-driven multi-app
scheduler in VM mode, the exclusive-node scheduler and the rank arithmetic of
the cgroup controller, and proves what they keep and promise.

How the model is built:

- **Values and objects.** The controller's tables (`machine_usage`,
  `id_to_config`, the jobs still running) are the value `SlotMap.Ctl`; the
  classes `Controller.Controller`, `VmController.VmController` and
  `Scheduler.MultiAppScheduler` edit the same tables in place, and each method
  states its new state as a function of the old one. The properties are lemmas
  about those functions.
- **Swaps as permutations.** `update_config`, the VM placement and the
  bandwidth table are permuted by three separate loops. All of them are
  sequences of slot exchanges; `Tables.Carry` says where a sequence takes a slot.
- **Runs.** `System.Step` is the transition system: launch the next job up to
  the next wait, one completion, one wake-up, or the end of `done`. The mutex is
  held from construction (`src/controller.cpp:17`) and released only inside the
  waits, so completions interleave only there. Assertions that can fail lead to
  the phase `Aborted`. Any live job may complete at any wait, measured loads are
  arbitrary in [0,1], and both sorts may produce any order that their
  comparison allows. `Schedule.Schedule` is the same loop on the objects, proved
  to produce a run of that system.

Where code and comments or asserted intentions differ, the code is modelled:

- The comments at `src/scheduler_multi_app.cpp:111-112` and `:127-131` say that
  the slot choice minimises the difference between the two machines. It
  maximises it (`SlotChoiceConservative`), and is minimal only when the choice
  makes no difference (`SlotChoiceMinimalIff`, `SlotChoiceWorse`).
- A candidate accepted by the sum test may still fail the assertions at
  `src/scheduler_multi_app.cpp:141-142` (`PairAbort`).
- `find_swap_candidates` may return a machine of the job itself, and the
  assertion at `src/controller.cpp:201` then fails exactly when the job holds
  the chosen slot (`PlanNoDupIff`, `UpdateReachesIff`, `DuplicateAbort`).
- The assertions at `src/scheduler_multi_app.cpp:89-90` demand "strictly below"
  while marking is "strictly above": they fail exactly for a machine the job
  keeps whose load equals the threshold (`AssertsPassIff`, `ThresholdAbort`).
- The VM table and the controller's tables agree after an arbitrary migration
  only if no element moves to a slot that a later element still has to leave
  (`GuestsKeptIff`, `GuestsLost`); the planner never asks for such a migration.
- The command of a job may end before the job is frozen: the scheduler holds the
  mutex from the launch to the first wait, so the completion at
  `src/controller.cpp:243` follows the freeze. `thaw` skips free slots, so the
  job's VMs stay suspended (`FrozenCompletionStrands`), a job launched on them
  later is suspended without having been frozen (`LaunchedAwakeIff`), and the
  schedule may never end (`StuckRun`). `LiveAwakeIff` and `NeverStuck` say when
  this does not happen.
- `cgroup_controller::generate_command` sorts the config by machine but then
  groups the unsorted one (`src/controller_cgroup.cpp:149-163`); `GroupingIff`
  says when the grouping is right all the same, `Ungrouped` gives a case where
  it is not.

## Model

| member | source | states |
|---|---|---|
| Controller.Controller.UpdateConfig | src/controller.cpp:164-202 | The in-place swap loop keeps usage and live configs inverse, also when the opposing config is the job's own; every inner search succeeds; the closing assertion holds iff the new config names no slot twice. |
| Controller.Controller.MoveElement | src/controller.cpp:170-197 | One iteration exchanges two slots for everybody: usage and all live configs are relabelled alike, whether the requested slot is free, another job's or the job's own. |
| SlotMap.UpdateCorrect | src/controller.cpp:164-202 | For every duplicate-free in-range target of equal length the job ends with exactly that config, and usage and live configs are still inverse. |
| SlotMap.UpdateReachesIff | src/controller.cpp:200-201 | The job's config becomes the requested one iff the request names no slot twice. |
| SlotMap.UpdateOthers | src/controller.cpp:169-198 | All live configs and the usage table follow one permutation of the slots: every job keeps its length and the position of each element, and slots outside the old and the new config do not change. |
| Migration.UpdateUndo | src/controller.cpp:164-202 | Updating to any duplicate-free config and back to the old one restores the usage table and every live job's ordered config, even when the two configs overlap. |
| Migration.ChainEndToStart | src/controller.cpp:169-198 | What sits at the end of a chain old[i] -> new[i] (a foreign occupant or a free marker) arrives at the chain's start, outside the new config. |
| Migration.GuestsStable | src/controller_vm.cpp:107-134 | Although VM table and controller tables are permuted by separate loops, every live job keeps its ordered list of VMs, if no element is sent to a slot that a later element still has to leave. |
| Migration.GuestsKeptIff | src/controller_vm.cpp:107-134 | That condition is exact: with distinct VM names the migrated job's ordered VM list survives iff it holds. |
| Counterexamples.GuestsLost | src/controller_vm.cpp:107-134 | A job that exchanges its own two slots: its config follows, the VM table stays, and its VMs appear in the wrong order. |
| Migration.OccupiedCount | src/controller.cpp:204-223 | The occupied slots number exactly the summed lengths of the live jobs' configs, so no slot is shared. |
| Controller.Controller.Execute | src/controller.cpp:204-223 | On free slots a launch claims exactly the config's slots for the next id, appends the config, and keeps usage and live configs inverse; its assertion holds at every slot. |
| Controller.Controller.Complete | src/controller.cpp:241-257 | A completion frees exactly the slots of the job's current config, whatever migrations happened since launch, and keeps the relation for all others; its assertion holds at every slot. |
| Controller.Controller.AllSlotsFree | src/controller.cpp:62-76 | The predicate of done() holds iff no job is live. |
| SlotMap.MoveConsistent | src/controller.cpp:173-196 | Whatever slots are exchanged, usage and live configs stay inverse to each other. |
| SlotMap.AllFreeIff | src/controller.cpp:65-73 | All slots are free iff no job is live. |
| Selection.EnoughFree | src/controller.cpp:108-131 | The wait predicate holds iff the machines with the requested number of free slots together offer the requested CPUs. |
| Selection.AvailableCount | src/scheduler_multi_app.cpp:216-233 | The selection finds one free slot on exactly as many machines as the wait predicate counts. |
| Selection.SelectSlots | src/scheduler_multi_app.cpp:216-235 | After a successful wait the size assertion and the emptiness assertion of execute hold iff the request is a positive multiple of the slot size; the selection is then the first free slot of each of the first k machines that have one. |
| Selection.SelectedFirst | src/scheduler_multi_app.cpp:218-233 | The selection takes the first free slot of each of the first machines that have one, in ascending order, and passes over none. |
| Bandwidth.SlotChoiceConservative | src/scheduler_multi_app.cpp:132-142 | The chosen slot leaves the two machines apart by exactly the sum of the differences between each machine's own two slots, the larger of the two possible spreads; any bound that both machines meet with it they meet with the other slot too. |
| Bandwidth.SlotChoiceMinimalIff | src/scheduler_multi_app.cpp:125-139 | The minimality promised by the comment holds iff one of the two machines has equally loaded slots. |
| Counterexamples.SlotChoiceWorse | src/scheduler_multi_app.cpp:125-139 | Loads for which the chosen slot leaves the machines 0.4 apart and the other slot 0.2. |
| Bandwidth.PlanStructure | src/scheduler_multi_app.cpp:148-160 | The plan keeps length and order and leaves exactly the elements on unmarked machines in place; every other element leaves for a candidate that is not marked. |
| Bandwidth.PlanApart | src/scheduler_multi_app.cpp:148-160 | Any two moved elements arrive on different machines. |
| Rebalance.PlanOrder | src/scheduler_multi_app.cpp:103-160 | Sorting, pairing and scattering together pair heavy with light: of two moved elements, the one from the heavier machine goes to a machine that is no heavier. |
| Theorems.PlannedOrder | src/scheduler_multi_app.cpp:103-160 | The same for every plan adopted in a round, whatever orders the two sorts produced; and no element goes to a machine heavier than one left alone. |
| Bandwidth.CandidatesUnmarked | src/scheduler_multi_app.cpp:141-142 | If the assertions on all pairs hold, no candidate is itself a marked machine and every candidate is below the threshold. |
| Bandwidth.GuardsIff | src/scheduler_multi_app.cpp:141-142 | The assertions on all pairs hold iff every candidate differs from its marked machine and exchanging the two slots leaves both machines below the threshold. |
| Bandwidth.PlanRule | src/scheduler_multi_app.cpp:125-158 | An element moves iff its machine is above the threshold, and then obeys the slot rule and fits where it goes. |
| Bandwidth.PlanNoDupIff | src/scheduler_multi_app.cpp:148-160 | The plan names no slot twice iff for no pair the job holds the chosen slot on the candidate machine already, a condition on the job's old config and the loads. |
| Rebalance.PlanTotals | src/scheduler_multi_app.cpp:141-142 | After the migration both machines of a pair carry exactly the loads that the assertions tested, hence less than the threshold. |
| Rebalance.PlanElsewhere | src/scheduler_multi_app.cpp:78-92 | Machines that are neither marked nor candidates keep the load of each slot. |
| Rebalance.PlanResolves | src/scheduler_multi_app.cpp:163-170 | After a plan that passed its assertions check_membw marks nothing on the job's old config and nothing on its new one, and any machine still above the threshold was above it before and not among the marked ones. |
| Rebalance.PlanConserves | src/scheduler_multi_app.cpp:78-92 | The bandwidth table holds the same loads after the migration as before. |
| UpdateAsserts.AssertsPassIff | src/scheduler_multi_app.cpp:88-90 | For a plan that passed its own assertions, the assertions after every single swap hold iff no machine the job keeps sits exactly at the threshold. |
| UpdateAsserts.AssertsAppend | src/scheduler_multi_app.cpp:82-91 | For any exchanges: one more keeps the assertions iff they held before and both its machines are then below the threshold. |
| Counterexamples.PairAbort | src/scheduler_multi_app.cpp:141-142 | A run from the initial state in which the sum test accepts a candidate but the pair test fails. |
| Counterexamples.DuplicateAbort | src/controller.cpp:200-201 | A run from the initial state in which the plan passes its tests but names a slot of the job twice, so that the assertion closing update_config fails. |
| Counterexamples.ThresholdAbort | src/scheduler_multi_app.cpp:88-90 | A run from the initial state in which the plan is sound but a machine the job keeps carries exactly the threshold, so that an assertion of update_membw_util fails. |
| Scheduler.MultiAppScheduler.UpdateMembwUtil | src/scheduler_multi_app.cpp:77-92 | Reports whether all assertions held after each swap; if so, the table is the old one under the pairwise exchanges. |
| Scheduler.MultiAppScheduler.CheckMembw | src/scheduler_multi_app.cpp:59-75 | Returns exactly the machines of the config strictly above the threshold. |
| Scheduler.MultiAppScheduler.SortMachines | src/scheduler_multi_app.cpp:34-56 | Returns a permutation of the machines ordered by total load, in either direction. |
| Scheduler.MultiAppScheduler.FindSwapCandidates | src/scheduler_multi_app.cpp:171-195 | Returns N distinct machines, none heavier than any machine left out, or nothing; nothing iff the load of the N marked machines and of the N lightest is at least 2N times the threshold. |
| Scheduler.MultiAppScheduler.GenerateNewConfig | src/scheduler_multi_app.cpp:94-161 | Nothing without candidates; a violated assertion iff for some marked machine the candidate is the machine itself or exchanging the job's slot with the one the slot rule picks leaves a machine of the pair at or above the threshold; otherwise a plan in which every moved element obeys the slot rule, fits where it goes, and, with candidates in ascending order, heavy machines are paired with light ones. |
| Scheduler.MultiAppScheduler.PlanPair | src/scheduler_multi_app.cpp:119-144 | Goes to the heavier slot of the new machine if the old slot is strictly lighter than its neighbour, otherwise to the lighter one, to slot 0 if both are equal; for different machines the two assertions hold iff both are below the threshold once the slots are exchanged. |
| Scheduler.MultiAppScheduler.CommandDone | src/scheduler_multi_app.cpp:197-204 | Clears the load of exactly the job's current slots. |
| Rejection.CandidatesLightest | src/scheduler_multi_app.cpp:169-191 | The candidates are as many as the marked machines, distinct, and carry no more load than any machine left out, whatever order the sort produced. |
| Rejection.PrefixMinimal | src/scheduler_multi_app.cpp:174-184 | No N machines carry less load than the first N of the ascending order. |
| Rejection.RejectionComplete | src/scheduler_multi_app.cpp:163-195 | If no candidates are found for N >= 1 marked machines, then for any N other machines every redistribution of the slot loads among these 2N machines leaves one at or above the threshold. |
| Rejection.AcceptanceIff | src/scheduler_multi_app.cpp:166-168 | Candidates are found iff some N distinct machines carry, together with the N >= 1 marked ones, less than 2N times the threshold. |
| Safety.StepInv | src/scheduler_multi_app.cpp:206-369 | Every step keeps: usage and configs inverse, free slots without load, VMs of live jobs as at launch, and overload confined to the job being retried. |
| Theorems.OverloadSafety | src/scheduler_multi_app.cpp:206-369 | In every state of every run: no machine exceeds the threshold while the scheduler waits for resources or has finished, and while it retries a job every machine that does carries that job. |
| Theorems.UsageInverse | src/scheduler_multi_app.cpp:252-256 | In every state of every run a slot holds an id iff that job is live and the slot is in its config, ids are below the counter, free slots carry no load (so the zero assertion after a measurement never fires), and all slots are free iff no job is live. |
| Theorems.OccupiedSlots | src/controller.cpp:204-257 | In every state of every run the occupied slots equal the summed lengths of the live configs. |
| Theorems.GuestListStability | src/controller_vm.cpp:151-161 | At any later point of a run the VM at each element of a live job's current config is the one at that position of its -hosts list, which names the VMs found there at the launch; and the VM table is a permutation of the VMs started first. |
| Theorems.SuspendedIff | src/scheduler_multi_app.cpp:294-365 | At every point of a run so far nothing is suspended between jobs and exactly the newest job's VMs in the retry loop, iff no suspended job has completed. |
| Theorems.LiveAwakeIff | src/scheduler_multi_app.cpp:206-369 | At every point of a run with any completions no live job is suspended between jobs and only the newest may be in the retry loop, iff no launch that went straight on to the next job used a VM left suspended. |
| Theorems.ResolveAbortsIff | src/scheduler_multi_app.cpp:296-320 | A round hits an assertion iff the sum test passes but some pair would not fit, the job holds the slot chosen for a pair already, or a machine the job keeps sits exactly at the threshold. |
| Progress.LaunchAbortsIff | src/scheduler_multi_app.cpp:213-320 | A launch hits an assertion iff the request exceeds the machines, is not a positive multiple of the slot size, or the first round hits one, with the conditions of that round spelled out. |
| Suspension.OpposingInvolution | src/controller.cpp:148-162 | Taking the opposing config twice gives the config back. |
| Suspension.OpposingDisjoint | src/controller.cpp:148-162 | With one slot per machine the opposing config shares no slot with the job's own. |
| Suspension.MeasurementBracket | src/scheduler_multi_app.cpp:245-256 | During the measurement exactly the VMs of other live jobs on the opposing slots are suspended besides those that were before; the measured job's own are untouched. |
| Schedule.Measure | src/scheduler_multi_app.cpp:248-256 | On the objects, the results are measured and recorded only while exactly these VMs are suspended; the loads of the job's slots become one minus the results, all others stay. |
| Schedule.LaunchJob | src/scheduler_multi_app.cpp:216-292 | Selection, execute, measurement between freeze_opposing and thaw_opposing: refused iff the request is not a positive multiple of the slot size, otherwise the next job runs on the selected slots with its measured loads. |
| Suspension.BracketRestoresIff | src/scheduler_multi_app.cpp:245-292 | Freezing and thawing the opposing slots restores the suspended set iff none of their VMs was suspended before. |
| Suspension.CompleteSuspendedIff | src/controller.cpp:241-257 | A completion keeps the suspended VMs accounted for iff the completed job was not suspended. |
| Suspension.StepSuspendedIff | src/controller.cpp:263-293 | A step keeps the suspended VMs accounted for iff it does not complete a suspended job. |
| Suspension.FrozenCompletionStrands | src/controller.cpp:263-267 | When the command of a frozen job ends, the scheduler goes on to the next job with the job's slots free again and their VMs still suspended, because thaw passes over free slots. |
| Suspension.LaunchedAwakeIff | src/scheduler_multi_app.cpp:237-292 | A job launched and measured is live and not suspended iff none of the VMs on its slots had been left suspended. |
| Suspension.ThawedAwake | src/scheduler_multi_app.cpp:314-317 | A frozen job that is thawed has no suspended VM, as its migration needs. |
| Suspension.StepAwakeIff | src/scheduler_multi_app.cpp:206-369 | A step keeps all live jobs but the waiting one awake iff it launches none straight on to a VM left suspended. |
| Counterexamples.StuckRun | src/scheduler_multi_app.cpp:300-368 | A complete run on one machine with a feasible queue and light loads: a job whose command ended before its freeze completes while frozen, its suspended VM is given to the next job, and the scheduler waits forever in done(). |
| Progress.OtherJobOnMarked | src/scheduler_multi_app.cpp:323-364 | If no slot's load exceeds the threshold alone, every wait in the retry loop at which nothing has completed leaves another live job on an overloaded machine, and it is awake whenever live jobs are kept awake. |
| Progress.StepMeasure | src/scheduler_multi_app.cpp:296-365 | For any loads, requests and completions: every step other than a spurious wake-up lowers a termination measure, and a spurious one does not raise it. |
| Progress.StuckIff | src/scheduler_multi_app.cpp:206-369 | Exactly when nothing but a suspended job's completion or a spurious wake-up can happen before the end: the scheduler waits (for free slots that are missing, for a first change, or in done) and every live job is suspended. |
| Progress.NeverStuck | src/scheduler_multi_app.cpp:206-369 | With feasible requests and loads that do not exceed the threshold alone, no run gets stuck in which no job was launched straight on to a VM left suspended. |
| Progress.GentleNeverStuck | src/scheduler_multi_app.cpp:206-369 | In particular none gets stuck in which no suspended job completes. |
| Progress.RetryBound | src/scheduler_multi_app.cpp:296-365 | Whichever jobs complete, also the frozen one: from its first wait on, a job is retried after at most one genuine wake-up per other job live at that time, if no slot's load exceeds the threshold alone. |
| Progress.ScheduleFinishes | src/scheduler_multi_app.cpp:206-369 | In every run, with any completions, loads, requests and spurious wake-ups, at most 3 * jobs + 1 steps are not spurious wake-ups; and the run was aborted, or launched and completed every queued job, or can go on without a suspended job's completion iff it is not stuck. |
| Schedule.Schedule | src/scheduler_multi_app.cpp:206-369 | The loop on the objects, for any requests, results in [0,1] and completions during the waits (also of the frozen job): its execution is a run of at most 3 * jobs + 1 steps from the initial state in which every launch records one minus the results measured for its job, in queue order; it ends with every job launched and completed, with a violated assertion, or in a stuck state, never stuck under the conditions of NeverStuck. |
| Schedule.Settle | src/scheduler_multi_app.cpp:294-365 | The retry loop with its frozen flag extends the run, and ends by going on to the next job, with a violated assertion, or in a stuck state. |
| Schedule.WaitForChange | src/controller.cpp:133-137 | Any live jobs complete during the wait, also the frozen one, and it ends after at least one completion; it may last forever only if every live job is suspended, and then tables and loads are as before. |
| Schedule.Start | src/controller_vm.cpp:201-227 | Freshly constructed controllers and scheduler, with the VMs of the pool started in order on the slots, two per machine, meet what the schedule needs; the run starts there and ends as the schedule does. |
| Schedule.Migrate | src/scheduler_multi_app.cpp:313-320 | Thaw, update_config and update_membw_util together give the migrated system iff the config names no slot twice and the load assertions hold. |
| Schedule.Relocate | src/scheduler_multi_app.cpp:314-318 | update_config and update_membw_util are called for a frozen job only once it is awake again, and report whether all their assertions held. |
| VmController.VmController.UpdateConfig | src/controller_vm.cpp:47-137 | The VM table is exchanged pair by pair and usage and configs by update_config; the call passes its assertions iff elements that stay on their host keep their slot and no slot is named twice. |
| VmController.VmController.GenerateHosts | src/controller_vm.cpp:151-157 | The -hosts list names the VMs at the config's slots, in order. |
| VmController.PlacementInjective | src/controller_vm.cpp:201-227 | With distinct names in the pool, the VMs placed two per machine are different on every slot. |
| VmController.VmController.constructor | src/controller_vm.cpp:201-227 | Slot s of machine m gets the VM at position 2m + s of the pool, taken from its front machine by machine and slot by slot. |
| Exclusive.ExclusiveRun | src/scheduler_multi_app_consec.cpp:28-53 | Over every run of launches and completions each machine is wholly free or wholly held by one job, so the assertion mu[0] == mu[1] never fires. |
| Exclusive.NodesReach | src/scheduler_multi_app_consec.cpp:32-48 | When the wait predicate holds, the selection reaches the request with less than one machine too many. |
| Exclusive.SelectNodes | src/scheduler_multi_app_consec.cpp:32-48 | The nested loops with early break select whole free machines that satisfy the closing assertion, and a positive request never yields an empty config. |
| Exclusive.NodesFirst | src/scheduler_multi_app_consec.cpp:34-47 | The selection takes slots 0 and 1 of the first free machines, in order, and passes over none. |
| Exclusive.Schedule | src/scheduler_multi_app_consec.cpp:22-56 | For positive requests that the machines can hold the loop terminates with every job completed, its execution is a run, and every job got both slots of each of its machines, reaching the request with less than one machine too many. |
| Ranks.Group | src/controller_cgroup.cpp:144-163 | The index-skipping loop lists the hosts of each group in order, its counts equal the list lengths and sum to the config's length. |
| Ranks.GroupAt | src/controller_cgroup.cpp:151-163 | With at most two elements per machine, an element is in the shared group iff a neighbour uses its machine, and otherwise in the group of its slot. |
| Ranks.HostAt | src/controller_cgroup.cpp:151-163 | The host of every element is listed in its group, at the position after those of the earlier elements of the group. |
| Ranks.GroupingIff | src/controller_cgroup.cpp:149-163 | With at most two elements per machine, exactly the shared machines land in the shared group iff elements of one machine are neighbours in the unsorted config. |
| Counterexamples.Ungrouped | src/controller_cgroup.cpp:149-163 | A config that uses both slots of a machine, neither of which is put into the shared group. |
| Ranks.RankPlacement | src/controller_cgroup.cpp:197-220 | For every rank r, line r / process_per_slot of the host file belongs to the group of the -np segment that contains r. |
| Ranks.SegmentsTotal | src/controller_cgroup.cpp:213-220 | The -np values sum to process_per_slot times the number of host-file lines. |
| Ranks.GenerateCommand | src/controller_cgroup.cpp:140-222 | The command is refused iff CPUs are missing or slots do not hold whole processes; otherwise every rank lands in its group, the host file has one line per element, each for process_per_slot processes, and the total -np is nprocs iff the slots offer exactly the required CPUs. |

## Left out

- MQTT messages, result objects and tasks, `run_distgen`, `system()`, threads and timing: measurements are inputs, completions are steps.
- The detached watcher thread of cgroup mode (`src/scheduler_multi_app.cpp:329-362`): it shares one lock object across threads; the runs here are those of VM mode.
- `src/scheduler_two_app.cpp`: its completion callback indexes a per-slot vector with a job id, so its intended slot invariant does not follow from the code.
- Migration messages, vCPU maps and process counts for the pscom hook (`src/controller_vm.cpp:65-104`): message content; the job lookup there presumes an occupied destination.
- XML, regex and UUID rewriting, YAML, logging, timestamps, options, file reading and the mapping of slots to CPUs.
- Floating-point rounding: loads are exact reals; `size_t` is unbounded and the free marker is `None`.
- The bandwidth table and the opposing config have two slots per machine, as the constructor's two entries per machine and the assertion at `src/controller.cpp:150` require; the slot map itself is proved for any number of slots.
- Scheduler.MultiAppScheduler.SortMachines: fixes insertion sort for `std::sort`; the theorems about runs quantify over every order the comparison allows.
- VmController.VmController.GenerateHosts: the list of names is kept, not the string with commas; the rest of the command line is text.
- The base-class relation between the controllers is a field (`VmController.ctl`); suspend and resume messages are modelled by their effect on the set of suspended VM names, with every request succeeding.
- Tables are sequences held in fields and reassigned by the methods; C++ references into them (`oc`, `opc`, `op_config` aliasing `old_config`) are modelled by index, with the aliasing cases kept.
- Schedule.Schedule: returns from wait_for_change only after a completion; the theorems about `System.Run` allow spurious wake-ups too. One measured result per selected slot is given, as the assertion at `src/scheduler_multi_app.cpp:250` demands.
- Progress.ScheduleFinishes: that the command of every job which is not suspended ends eventually enters as the possibility of a step; a slot has at least one CPU.
