# Operating-systems course programs, verified

A Dafny model of the programs of an operating-systems course, with proofs of what they keep
over whole runs:

- a demand-paging simulator (`assignments/pa7/simulator.c`) with the two pagers written for it:
  `assignments/pa7/pager-basic.c`, which serves one job at a time, and
  `assignments/pa8/pager-predict.c`, which keeps a shadow of the page states, evicts by least
  recent use to hold a reserve of free frames, and fetches pages ahead from a matrix of observed
  transitions;
- the two-stage lookup pipeline shut down by poison pills (`assignments/pa6/multi-lookup.c`);
- the counting semaphore, the bounded buffer and the unlocked counter of the thread recitation
  (`recitation/threads/thread_test.c`);
- the ring whose write position is derived from a semaphore's value (`assignments/pa4/array.c`).

Every `#define` (slots, processors, pages per process, page size, page wait, frames, reserve,
window, decay interval, queue size, threads, iterations) is a parameter, so the theorems hold for
all sizes. `dafny verify dfyconfig.toml` checks everything.

## How it is laid out

The simulator and the predictive pager are classes that update arrays in place (`Simulator.dfy`,
`PredictPager.dfy`). Each of their methods is tied to a function on values: the simulator's to the
state machine of `Paging.dfy`, the pager's to `Shadow.dfy`, `Reserve.dfy`, `References.dfy`,
`Victims.dfy` and `Transitions.dfy`, where the properties of whole runs are proved. `MainLoop.dfy`
and `BasicTermination.dfy` hold the main loop with each of the pagers. `PagerRuns.dfy` says which
runs the predictive pager can make, `PagerHistory.dfy` what it remembers and evicts in them, in terms
of the simulator's states alone, and `PredictTermination.dfy` and `Starvation.dfy` which of them end.
`PagingTimes.dfy` is about how long paging takes, `ForwardJumps.dfy` about where branches lead, and
`PipelineOrder.dfy` about the order of the lookup logs.

A concurrent program is a state machine whose step is one semaphore or mutex operation, or one
access to shared memory; a run is any sequence of enabled steps, so a theorem about runs is one
about all interleavings. Semaphores, mutexes and condition variables behave as POSIX.1-2008, System
Interfaces, section 3, describes them. The shared objects themselves are classes that every step
of a thread updates in place: `BoundedQueue.Ring`, `SharedArray.Shared`, `Pipeline.Lookup`,
`CondSemaphore.Semaphore` and `LostUpdate.Counter`.

## What the code does that its comments do not say

- `assignments/pa7/pager-basic.c:19-27`: the victim loop tests the incoming page instead of the
  victim, and it is reached only when that page is not in memory, so no page ever goes out. The
  model keeps it so; `PagerBasic.PageIt` proves that the loop does nothing.
- `assignments/pa8/pager-predict.c:192-193`: the initialiser sets only entry 0 to -1, so slot 0
  never records a transition and all other slots start as if on page 0
  (`PredictPager.Pager.TransitionsBalance`).
- `assignments/pa8/pager-predict.c:416`: after a local eviction the loop is left, so the slots after
  it are not served in that tick and their references are not noted. Least recent use is therefore
  least recent among the references of the slots served at each call, which
  `PagerHistory.EvictionsAreLeastRecent` makes explicit.
- `assignments/pa8/pager-predict.c:470-497`: the third case, a branch, cannot arise
  (`Transitions.PredictionIsAnother`).
- `assignments/pa8/pager-predict.c:274-309`: the reserve can starve all jobs. If paging takes one
  tick and the reserve is all of memory, every page is evicted before it is used and the main loop
  never ends (`Starvation.NeverDone`); with room for all loaded jobs besides the reserve it always
  does, if every program exits when it runs alone (`PredictTermination.EndsWithRoom`).
- `assignments/pa7/simulator.c:132`: an unconditional branch is not taken for ever: it is taken
  0x7fffffff times, refused as often, and so on in turn (`BranchEngine.GotoIsTaken`).
- `assignments/pa4/array.c:61`: with overlapping operations the ring is not a queue and can lose an
  item (`SharedArray.OverlappingPutsLoseAnItem`); it is one if and only if every slot was chosen with
  no operation half done (`SharedArray.QueueExactlyWhen`).
- `assignments/pa6/multi-lookup.c:175`: a line of a file that happens to be the pill ends a resolver
  and is lost (`Pipeline.ExactlyOnceExactlyWhen`, with a run in `Pipeline.PillLineRuns`). With fewer
  such lines than resolvers all else is still delivered; with as many, it can depend on the schedule
  whether main ever returns (`Pipeline.OutcomeDependsOnSchedule`).
- `assignments/pa6/multi-lookup.c:98-105`: a requester ends at a file that does not open, and what is
  left in the file queue can block main for ever (`Pipeline.BadFileBlocksMain`).
- `assignments/pa7/programs.c:32`: a program without branches finds the zero-filled first entry of its
  table and jumps from 0 to 0 once before it runs (`Programs.BranchlessTime`).

## Model

| member | source | states |
|---|---|---|
| Paging.FramesConserved | assignments/pa7/simulator.c:237-245 | on every run with any pager: free frames plus pages not out, over all jobs, is the number of frames; the pool is never overdrawn; countdowns stay in range; no two slots share a job |
| Paging.EndOfRun | assignments/pa7/simulator.c:779-785 | when the main loop's test ends it, every job has been loaded, has stopped at an exit, and all frames are free |
| Paging.InitOk | assignments/pa7/simulator.c:531-552 | the initial state satisfies the invariant: first jobs in first slots, all frames free |
| Paging.PageInMeans | assignments/pa7/simulator.c:364-381 | unless the guard refuses, the answer is yes exactly if the page is now resident or coming; no changes nothing and has one of two causes; a frame is taken only for a page that was out |
| Paging.PageOutMeans | assignments/pa7/simulator.c:343-361 | the answer is yes exactly if the page is now out or going out; only a resident page changes, and its frame stays in use |
| Paging.FinishingKeepsInv | assignments/pa7/simulator.c:572-594 | unloading a finished job gives back exactly its frames, and loading the next keeps the invariant |
| Paging.AgingKeepsInv | assignments/pa7/simulator.c:634-662 | aging gives back a frame exactly when a page leaves |
| Simulator.Simulator.constructor | assignments/pa7/simulator.c:531-552 | the slots are filled from the front of the queue |
| Simulator.Simulator.PageIn | assignments/pa7/simulator.c:364-381 | the in-place request is the state machine's, with the same answer |
| Simulator.Simulator.PageOut | assignments/pa7/simulator.c:343-361 | the in-place eviction is the state machine's, with the same answer |
| Simulator.Simulator.ProcessStep | assignments/pa7/simulator.c:266-339 | one step with both bisections and the branch engine is the state machine's step, which leads where ForwardJumps.BranchLeads and PlainLeads say |
| Simulator.Simulator.Unload | assignments/pa7/simulator.c:237-245 | page by page, exactly the held frames go back and all pages are out |
| Simulator.Simulator.AllStep | assignments/pa7/simulator.c:569-596 | all slots step in turn, finished jobs are replaced |
| Simulator.Simulator.AgePages | assignments/pa7/simulator.c:639-659 | every countdown not at its end moves on by one, and the pool grows by the frames given back |
| Simulator.Simulator.AllAge | assignments/pa7/simulator.c:634-662 | all active slots age in turn |
| Simulator.Simulator.AllDone | assignments/pa7/simulator.c:598-604 | true exactly when no slot has an active job |
| Simulator.Simulator.View | assignments/pa7/simulator.c:664-685 | what the pager is shown: activity, pc and residence of every page |
| Simulator.Simulator.AllScore | assignments/pa7/simulator.c:554-560 | the totals over all jobs |
| RoundEffects.TickAt | assignments/pa7/simulator.c:569-662 | after a tick a slot holds the same job, stepped and aged, or holds no frames |
| PagingTimes.LeavingTakesWait | assignments/pa7/simulator.c:649-657 | whatever is requested meanwhile, n < wait ticks after its eviction a page is in state -1 - n and holds its frame, and tick number wait puts it out and frees the frame |
| PagingTimes.ComingTakesWait | assignments/pa7/simulator.c:640-648 | a requested page is resident after exactly wait ticks, whatever is requested meanwhile |
| JobEffects.ScoreIsSlotTicks | assignments/pa7/simulator.c:554-567 | blocked and compute cycles reported for a run together are its occupied slot ticks |
| JobEffects.CyclesAddUp | assignments/pa7/simulator.c:279-295 | a job in a slot gains one compute or one blocked cycle per tick, any other job none |
| Independence.PagerIndependence | assignments/pa7/simulator.c:266-339 | two runs with any pagers, pools and other jobs: of a job's two sequences of computing pcs one is a prefix of the other, and if it finishes in both it has computed equally long |
| Independence.RunsAlone | assignments/pa7/simulator.c:266-295 | what a job has done in any run is what its program does alone in its first `compute` ticks |
| Independence.ScoreIsIndependent | assignments/pa7/simulator.c:554-567 | two complete runs of the same jobs report the same total of compute cycles |
| Independence.FinishedAfter | assignments/pa7/simulator.c:279-314 | a job that is done has computed exactly as long as it needs alone, one that is not has computed less |
| Independence.ScoreIsSum | assignments/pa7/simulator.c:554-567 | a complete run reports as compute cycles the sum of what the jobs need alone |
| Programs.FindExit | assignments/pa7/simulator.c:299-314 | the bisection finds pc exactly when it is among the sorted exits |
| Programs.FindBranch | assignments/pa7/simulator.c:318-329 | the bisection gives the same branch as a linear scan, or none |
| Programs.PageInRange | assignments/pa7/simulator.c:262-275 | on every run 0 <= pc <= size, so the page index stays below the number of pages |
| ForwardJumps.BranchLeads | assignments/pa7/simulator.c:244-262 | from a branch that is no exit one step leads to its target if its engine says yes, to the next pc if no, to 0 if that is outside the program, and only its engine is asked |
| ForwardJumps.PlainLeads | assignments/pa7/simulator.c:330-338 | from any other pc that is no exit one step leads to the next pc, from the program's size to 0 |
| ForwardJumps.ExitStops | assignments/pa7/simulator.c:299-314 | at an exit the program stops, whether there is a branch or not |
| ForwardJumps.IfElseLoopTime | assignments/pa7/programs.c:11-18 | with an IF from w to t, a GOTO from g to f and a FOR at f, and k the FOR's first draw: (k+1)(g+2)+1 ticks, less (g-w)-(f-t) for every yes among the IF's first k+1 answers |
| Programs.FillLoop | assignments/pa7/simulator.c:150-161 | the loop fills the table with draws and single refusals, to its end |
| Programs.SingleLoopTime | assignments/pa7/programs.c:19-23 | a loop from L to 0 with first draw k computes (k+1)(L+1)+1 ticks |
| Programs.BranchlessTime | assignments/pa7/programs.c:32 | a program without branches, with the zero-filled entry as a jump from 0 to 0 and a cleared engine, jumps once and computes L + 2 ticks |
| Programs.NestedLoopsTime | assignments/pa7/programs.c:25-30 | nested loops compute 1 plus the sum over i = 0..m of (a+2) + (a-t+1) k_i ticks |
| BranchEngine.EngineRefinesStream | assignments/pa7/simulator.c:180-191 | the n-th answer is the n-th element of the endless run-length expansion of the table, through any number of rounds |
| BranchEngine.EvenTablesRepeat | assignments/pa7/simulator.h:21 | an even table repeats its expansion without a change of phase |
| BranchEngine.NextOffsetIsModulo | assignments/pa7/simulator.c:185 | the wrap-around is the remainder by the table's size |
| BranchEngine.GotoIsTaken | assignments/pa7/simulator.c:127-133 | for every n: jump number n, counted from 0, is taken if and only if n / 0x7fffffff is even |
| PagerBasic.PageIt | assignments/pa7/pager-basic.c:6-29 | the call serves the first slot it can and never evicts |
| PagerBasic.OnlyOneJobAtATime | assignments/pa7/pager-basic.c:7-17 | in every reachable state only the first job holds frames, so at least frames - npages are free, and its request cannot fail |
| PagerBasic.FaultBlocksExactlyWait | assignments/pa7/simulator.c:278-295 | a served fault costs the job exactly `wait` blocked ticks, after which it computes |
| PagerBasic.NoPageFaultsTwice | assignments/pa7/pager-basic.c:14-17 | a page once in or coming stays for as long as the job keeps its slot |
| PagerBasic.BasicRunIsRun | assignments/pa7/pager-basic.c:6-29 | every run with this pager is a run of the simulator with some requests, so frame conservation and pager independence hold of it |
| BasicTermination.EndsUnderBasicPager | assignments/pa7/simulator.c:778-785 | with programs that exit when run alone, the main loop ends within (wait + 2) rounds per compute tick |
| BasicTermination.RoundUsesRank | assignments/pa7/simulator.c:779-782 | every round lowers the rank while a slot has a job |
| BasicTermination.Simulate | assignments/pa7/simulator.c:778-785 | the loop terminates with all jobs at an exit and all frames free |
| BasicTermination.Experiment | assignments/pa7/simulator.c:778-786 | the whole program with this pager ends within the bound and reports the sum of the jobs' own times as compute cycles, and the rest of the occupied slot ticks as blocked |
| Shadow.ShadowAgrees | assignments/pa8/pager-predict.c:28-34 | after every call of every run, a page v ticks from resident is awaited for at least v ticks, and a page going out until exactly the tick it is out, through re-arming, process exit and slot reuse |
| PagingTimes.AwaitedIsUnderWay | assignments/pa8/pager-predict.c:28-34 | and conversely: while a page-out noted for the job still in the slot is awaited, the page is going out and will be out at the tick noted; a page whose page-in is awaited is in or coming; and whatever is under way is awaited for the job in the slot |
| Shadow.TickKeepsAgreement | assignments/pa8/pager-predict.c:227-245 | one tick of the simulator keeps the agreement, whatever the jobs do |
| Shadow.ExpireKeepsAgreement | assignments/pa8/pager-predict.c:227-245 | forgetting finished operations keeps it |
| Shadow.RequestKeepsAgreement | assignments/pa8/pager-predict.c:377-379 | a legal request and its note keep it, also for a page already resident or coming |
| Reserve.CountIsSafe | assignments/pa8/pager-predict.c:247-259 | the count of pages in memory is never too low: frames free or leaving are at least what it says |
| Reserve.CountIsSize | assignments/pa8/pager-predict.c:247-259 | the count is the number of pages shown as resident or whose page-in is awaited |
| Reserve.SlotsCoverJobs | assignments/pa8/pager-predict.c:248-259 | summing over the slots covers all frames in use, since jobs outside hold none |
| Reserve.EvictionAddsOne | assignments/pa8/pager-predict.c:300-301 | each eviction is accepted and puts one more frame on its way out |
| Reserve.EvictableIsLegal | assignments/pa8/pager-predict.c:63-64 | every page the searches consider is still resident, so the eviction is accepted |
| Reserve.EvictedStaysOut | assignments/pa8/pager-predict.c:298-303 | an evicted page stays on its way out through any legal requests that follow in the call, and none of them evicts it again |
| References.OlderMeansLessRecent | assignments/pa8/pager-predict.c:368 | comparing timestamps is comparing recency over the whole trace, both ways |
| References.TimestampDecidesWindow | assignments/pa8/pager-predict.c:165 | the test on timestamps holds exactly for the pages referenced in the last window - 1 ticks |
| Victims.VictimIsLeastRecent | assignments/pa8/pager-predict.c:53-74 | every reference to the victim is followed by one to any other evictable page |
| Victims.LruIsUnique | assignments/pa8/pager-predict.c:60-71 | with ties to the lowest index the victim is determined |
| Victims.VictimsAreDistinct | assignments/pa8/pager-predict.c:278-418 | no page is evicted twice in a whole call, reserve and local evictions together, and every evicted page is awaited to its end |
| Transitions.PathBalance | assignments/pa8/pager-predict.c:324-331 | a path leaves each page as often as it reaches it, but for its first and last page |
| Transitions.MatrixBalance | assignments/pa8/pager-predict.c:330-331 | row sum minus column sum of a page is [it was the start] - [it is the last page] |
| Transitions.TransitOk | assignments/pa8/pager-predict.c:312-339 | a call keeps the matrices exact path counts until the first decay, and page indices and zero diagonal for ever |
| Transitions.TransitEntry | assignments/pa8/pager-predict.c:312-339 | a pass, entry by entry: one more for the page a slot was on and the page it is on; on a decay tick every slot that has moved fades all entries once, after its own record |
| Transitions.PredictionIsAnother | assignments/pa8/pager-predict.c:432-438 | the first entry of a sorted row is a most frequent successor and never the current page |
| Transitions.Sort | assignments/pa8/pager-predict.c:123-130 | a rearrangement in descending order of frequency |
| PredictPager.Pager.constructor | assignments/pa8/pager-predict.c:186-224 | the static tables at the first call |
| PredictPager.Pager.ExpireWaits | assignments/pa8/pager-predict.c:227-245 | exactly the operations over by now are forgotten |
| PredictPager.Pager.CountInMem | assignments/pa8/pager-predict.c:247-259 | the pages shown as resident or awaited to come in |
| PredictPager.Pager.FindLruGlobal | assignments/pa8/pager-predict.c:53-74 | finds a victim exactly if there is one: evictable, last referenced least recently in the trace, ties to the lowest index |
| PredictPager.Pager.FindLruLocal | assignments/pa8/pager-predict.c:36-51 | the same among one slot's pages |
| PredictPager.Pager.TryPageOut | assignments/pa8/pager-predict.c:300-304 | the eviction of a victim is always accepted, so the break is never taken |
| PredictPager.Pager.FreeFrames | assignments/pa8/pager-predict.c:274-309 | frames free or leaving reach the reserve, or nothing is left to evict; each victim is the least recently used; no more are evicted than the count calls for |
| PredictPager.Pager.ApplyDecay | assignments/pa8/pager-predict.c:95-103 | every entry becomes the decay of the entry before, page indices stay |
| PredictPager.Pager.UpdateTransitions | assignments/pa8/pager-predict.c:312-339 | every active slot but slot 0 is then last seen on the page its pc is on, and its path grows by it if it is another; off decay ticks exactly the entries of these moves grow, by one; counts stay exact |
| PredictPager.Pager.TransitionsBalance | assignments/pa8/pager-predict.c:192-193 | in the pager's own tables: balance of departures and arrivals before the first decay, nothing recorded for slot 0, zero diagonal |
| PredictPager.Pager.UpdateWorkingSet | assignments/pa8/pager-predict.c:152-178 | set_size is the number of pages referenced in the window, once per window; what is requested is in the next row |
| PredictPager.WindowIsFetched | assignments/pa8/pager-predict.c:161-172 | on the window's ticks exactly the pages referenced in it and not shown in memory are asked for, on others none |
| PredictPager.CurrentRequestsAre | assignments/pa8/pager-predict.c:360-380 | exactly the current pages of the slots served that are not in memory are asked for |
| PredictPager.RangeRequestsAre | assignments/pa8/pager-predict.c:459-466 | the fetch of a loop's body asks for every page from the predicted one up to the current, and no other |
| PredictPager.Pager.NoteReference | assignments/pa8/pager-predict.c:365-368 | the timestamp of the page the slot's pc is on becomes the tick, whether the page is in memory or not, no other changes, and the timestamps stay the last references of the trace |
| PredictPager.Pager.ServeSlot | assignments/pa8/pager-predict.c:375-418 | the current page is requested if it is not in memory; if refused, the slot's least recently used page is evicted, if it has one |
| PredictPager.Pager.CurrentPages | assignments/pa8/pager-predict.c:360-419 | the slots in turn up to the first local eviction; each served slot awaits its page or has nothing to evict |
| PredictPager.Pager.PredictSlot | assignments/pa8/pager-predict.c:426-497 | a most frequent successor above the current page is fetched with its own most frequent successor, one below with the whole loop body |
| PredictPager.Pager.PageIt | assignments/pa8/pager-predict.c:180-517 | a whole call: all requests legal, phase by phase as above, no page evicted twice, the trace and the tables extended by exactly what the slots' pcs say, shadow and simulator in agreement, clock advanced |
| PagerHistory.TraceIsRun | assignments/pa8/pager-predict.c:361-368 | in every run the trace behind the timestamps holds at tick t exactly the pages that the jobs in the slots served at call t were on |
| PagerHistory.EvictionsAreLeastRecent | assignments/pa8/pager-predict.c:274-418 | every eviction of every run, to its end: for the reserve, no page in memory and not awaited was used less recently at the calls before; for a slot, the request for its current page had just been refused, and none of its own pages was |
| PagerHistory.PathsAreRun | assignments/pa8/pager-predict.c:312-331 | in every run a slot's path is page 0 and the pages its jobs were on at the calls, standing still left out |
| PagerHistory.TablesAreRun | assignments/pa8/pager-predict.c:312-339 | so pg_last is the last of these pages, and until the first decay each entry counts how often the one page followed the other; slot 0 records nothing |
| PagerRuns.PagerRunIsLegal | assignments/pa7/simulator.c:778-785 | every run this pager can make is a legal run of the joint state machine |
| PredictTermination.EndsWithRoom | assignments/pa7/simulator.c:778-785 | with frames for all pages of all processors' jobs and for the reserve, and with programs that exit when run alone, every run of this pager is over after (wait + 2) rounds per compute tick |
| PredictTermination.RoundUsesJobRank | assignments/pa7/simulator.c:779-782 | every round with such room brings every loaded job nearer to its exit, whatever was fetched ahead |
| PredictTermination.CallOnlyFetches | assignments/pa8/pager-predict.c:274-309 | with such room a call evicts nothing and asks for every current page that is not in memory |
| PredictTermination.CurrentIsGranted | assignments/pa7/simulator.c:364-381 | and every request for a current page is granted |
| Starvation.NeverDone | assignments/pa7/simulator.c:778-785 | if paging takes one tick and the reserve is at least all frames, no run of this pager, of whatever length, is done or has computed a single tick |
| Starvation.CallStarves | assignments/pa8/pager-predict.c:274-309 | there a call leaves no page in memory, whatever it requests after the evictions |
| MainLoop.Round | assignments/pa7/simulator.c:779-782 | a tick and a call in place are a round of the joint state machine with requests the pager may make, and keep the agreement |
| MainLoop.Simulate | assignments/pa7/simulator.c:778-785 | the loop makes a run of this pager that goes on exactly until all jobs are done or the limit is reached, and leaves the pager with the memory of that run |
| MainLoop.Experiment | assignments/pa7/simulator.c:778-786 | from fresh jobs to the score: a legal run of this pager, in agreement; blocked and compute cycles are the occupied slot ticks; when all are done, compute cycles are the sum of the jobs' own times; with room that happens within (wait + 2) rounds per compute tick; starved, only the limit ends the loop |
| Pipeline.RunLaws | assignments/pa6/multi-lookup.c:81-132 | for every configuration: each step of every interleaving uses up one unit of an explicit rank, which is never negative |
| Pipeline.TerminatesExactlyWhen | assignments/pa6/multi-lookup.c:362-392 | without resolvers, or with fewer pill lines than resolvers: the pipeline shuts down if and only if its queues have room for what is never taken out of them |
| Pipeline.BadFileBlocksMain | assignments/pa6/multi-lookup.c:98-105 | a run in which a file that does not open ends the only requester, the rest does not fit, and main is blocked for ever |
| Pipeline.OutcomeDependsOnSchedule | assignments/pa6/multi-lookup.c:175-177 | with as many pill lines as resolvers: one configuration with a complete run and a run that is stuck |
| Pipeline.FewBadFiles | assignments/pa6/multi-lookup.c:98-105 | with k unopenable files, fewer than requesters, all other files are read and exactly k pills stay in the queue |
| Pipeline.NoPillBeforeHost | assignments/pa6/multi-lookup.c:374-386 | if no line is the pill, no resolver takes a pill while a host is queued |
| Pipeline.ExactlyOnce | assignments/pa6/multi-lookup.c:108-131 | with fewer pill lines than resolvers: at the end the serviced log is the lines of all files read, the results log those that are not the pill, as multisets; as many of main's pills stay queued as there are pill lines; results are lookups, and the threads' counts add up |
| Pipeline.ExactlyOnceExactlyWhen | assignments/pa6/multi-lookup.c:166-191 | at the end of a run the two logs hold the same hosts, as multisets, if and only if no line read is the pill (without resolvers: if and only if no line is read) |
| Pipeline.PillLineIsLost | assignments/pa6/multi-lookup.c:175-177 | at the end of any run with such a line, it is in the serviced log and not among the results |
| Pipeline.PillLineRuns | assignments/pa6/multi-lookup.c:175-177 | for any pill and lookup, a configuration and a complete run in which this happens |
| Pipeline.CountsAreOwn | assignments/pa6/multi-lookup.c:123-191 | each thread's printed count is its own: a resolver's is half its moves, a finished requester's all items it took but the one that ended it |
| PipelineOrder.OneRequesterKeepsOrder | assignments/pa6/multi-lookup.c:108-121 | with one requester the serviced log is the lines of the files in order, on every schedule, for any number of resolvers |
| PipelineOrder.OneOfEachKeepsOrder | assignments/pa6/multi-lookup.c:166-191 | with one resolver too, and no line that is the pill, so are the results |
| Pipeline.Lookup.constructor | assignments/pa6/multi-lookup.c:317-351 | empty queues, all threads at the start of their loops, counters at zero |
| Pipeline.Lookup.MainStep | assignments/pa6/multi-lookup.c:362-392 | main's next put or join, in place, is the state machine's |
| Pipeline.Lookup.RequesterMove | assignments/pa6/multi-lookup.c:81-132 | a requester's next step, in place, is the state machine's |
| Pipeline.Lookup.ResolverMove | assignments/pa6/multi-lookup.c:166-191 | a resolver's next step, in place, is the state machine's |
| Pipeline.Lookup.Execute | assignments/pa6/multi-lookup.c:57-200 | any interleaving of the in-place steps is a run of the state machine |
| BoundedQueue.Fifo | recitation/threads/thread_test.c:183-199 | in every interleaving the r-th value popped is the r-th pushed, and tail = (head + occupied) mod size |
| BoundedQueue.TokenMeansRoom | recitation/threads/thread_test.c:184-186 | who holds a token finds a free slot, or an unread value |
| BoundedQueue.WriteKeepsUnread | recitation/threads/thread_test.c:186 | no unread slot is overwritten |
| BoundedQueue.RunLaws | recitation/threads/thread_test.c:249-266 | no run is longer than the work at its start; what is left to push and pop is conserved |
| BoundedQueue.AllFinishExactlyWhen | recitation/threads/thread_test.c:249-266 | all threads finish on every schedule if pushes exceed pops by 0 to size, on none otherwise |
| BoundedQueue.Ring.constructor | recitation/threads/thread_test.c:172-177 | an empty ring |
| BoundedQueue.Ring.PushStep | recitation/threads/thread_test.c:183-190 | each step of a push, in place, is the state machine's |
| BoundedQueue.Ring.PopStep | recitation/threads/thread_test.c:191-199 | each step of a pop, in place, is the state machine's |
| BoundedQueue.Ring.Push | recitation/threads/thread_test.c:183-190 | a whole push appends its value to the contents |
| BoundedQueue.Ring.Pop | recitation/threads/thread_test.c:191-199 | a whole pop takes the oldest value |
| CondSemaphore.RefinesAtomicSemaphore | recitation/threads/thread_test.c:148-160 | the increments and decrements of every run are those of an atomic counting semaphore |
| CondSemaphore.CountIsCalls | recitation/threads/thread_test.c:148-160 | in every run count is the initial value plus the posts returned or past their increment, minus the waits returned or past their decrement, counted by calls and returns |
| CondSemaphore.UnitsReachWaiters | recitation/threads/thread_test.c:148-160 | when no call can go on by itself every post has returned, and as many waits as there were units for, or all; so a thread sleeps only if initial value and posts are used up by returned waits |
| CondSemaphore.NoLostWakeup | recitation/threads/thread_test.c:148-160 | count is never negative; while a thread sleeps, those woken and not yet rechecked cover it but for one signal still to come; a stuck state has sleepers only at count 0 |
| CondSemaphore.Semaphore.TestOrTake | recitation/threads/thread_test.c:150-152 | the loop's test goes to sleep at zero, else takes one unit |
| CondSemaphore.Semaphore.AddOne | recitation/threads/thread_test.c:157 | the increment of a post |
| CondSemaphore.Semaphore.Execute | recitation/threads/thread_test.c:148-160 | any interleaving of the in-place steps is a run of the state machine |
| LostUpdate.Counter.Execute | recitation/threads/thread_test.c:54-67 | any interleaving of the in-place loads and stores is a run of the state machine |
| LostUpdate.UnlockedIsExactWhen | recitation/threads/thread_test.c:54-67 | on complete runs the counter is the number of increments if and only if no store fell between another thread's load and its store |
| LostUpdate.UnlockedBounds | recitation/threads/thread_test.c:54-67 | two or more iterations a thread end between 2 and the number of increments |
| LostUpdate.UnlockedAttainsTwo | recitation/threads/thread_test.c:54-67 | for every number of threads and iterations a schedule ends at 2 |
| LostUpdate.UnlockedAttainsProduct | recitation/threads/thread_test.c:54-67 | and one at the product |
| LostUpdate.LockedIsExact | recitation/threads/thread_test.c:70-78 | with the mutex every complete run ends at the product, and some thread can always go on |
| SharedArray.WritePosition | assignments/pa4/array.c:52-61 | with w items written the next goes to slot (w - P - C) mod size, the queue's slot if and only if no producer has yet to post and no consumer yet to advance |
| SharedArray.CleanRunsAreFifo | assignments/pa4/array.c:41-97 | runs in which every slot is chosen with nothing in flight take items out in order and overwrite none |
| SharedArray.QueueExactlyWhen | assignments/pa4/array.c:41-97 | with distinct items and no misled producer still to write: items come out in the order of writing with all unread ones in place, if and only if every slot was chosen with nothing in flight |
| SharedArray.PlacedExactlyWhen | assignments/pa4/array.c:52-65 | when no producer is between choosing and writing, all items so far went to slot k mod size if and only if every slot was chosen with nothing in flight |
| SharedArray.OverlappingPutsLoseAnItem | assignments/pa4/array.c:61-69 | a run of two puts and one get in which the first item is lost although there is room |
| SharedArray.Shared.constructor | assignments/pa4/array.c:8-39 | zeroed slots, all of them empty |
| SharedArray.Shared.ChooseSlot | assignments/pa4/array.c:52-61 | the slot is derived in place from head and the semaphore's value at that moment |
| SharedArray.Shared.Put | assignments/pa4/array.c:41-72 | a whole put appends its item to the contents, and keeps the order if nothing is in flight |
| SharedArray.Shared.Get | assignments/pa4/array.c:74-97 | a whole get reads the slot at head, which on clean runs is the oldest item |

## Left out

- Logging, CSV output, signal handling, argument parsing, timing, `allprint`, `allblocked`: output only; the `blocked` and `pageouts` arrays of the simulator serve it and are not modelled.
- Random numbers: branch tables are inputs. The IF fill (`assignments/pa7/simulator.c:141-148`) steps one past its table at its end and is not modelled; the FOR fill is (`Programs.FillLoop`), with the draws as input.
- Programs.FindBranch: asks for a table with an entry, as `Programs.ProgramOk` does. The program without branches (`assignments/pa7/programs.c:32`), which every run of the real queue loads (`assignments/pa7/simulator.c:401`), is the one whose table is its zero-filled first entry, Branch(0, 0), with a cleared engine (`Programs.BranchlessTime`); the entry before the table, which the search reads too (`assignments/pa7/simulator.c:329`), is taken not to match.
- Programs.ProgramOk: tables are sorted and without repetition, as both bisections presuppose.
- `npages` of a shown entry and of a process: all processes have the same number of pages, as `assignments/pa7/simulator.c:227` sets it.
- The pa8 simulator is not part of this model; the pager is composed with pa7's `pagein` and `pageout`, with the guard against predictive page-ins as a parameter.
- `decay` stands for the multiplication by a float (`assignments/pa8/pager-predict.c:99`): any function that maps f >= 0 into 0..f.
- `qsort`: the pager sorts by insertion; its callers use only that the result is sorted and a rearrangement, so ties are unspecified.
- Integer overflow of the pager's clock: a call needs tick < INT_MAX, which the sentinel of the searches needs too.
- MainLoop.Simulate: stops after a given number of rounds, because with this pager the loop can go on for ever (`Starvation.NeverDone`). Between the condition under which it always ends (`PredictTermination.EndsWithRoom`) and the one under which it never does, termination is not decided. The repository's own sizes meet the first with up to four processors (`-procs 4`), 4 * 20 + 18 <= 100; with more nothing is proved about how soon jobs finish.
- Nested static arrays of the pager: arrays of rows, each row a value that is replaced when an entry changes; `page_start` and the other fields of a row are kept.
- `proc` in the pager's tracker and working-set records: it equals the index and is not stored.
- DNS lookup, file reading and `fgets` line splitting: a file is a sequence of lines or cannot be opened, the lookup any total function. Failing opens of the output files, thread creation and memory allocation are not modelled.
- pa6's own `array.c` is not part of this model: its arrays are blocking first-in first-out queues of one capacity.
- Pipeline.TerminatesExactlyWhen: asks, if there are resolvers, for fewer pill lines than resolvers; with as many, the outcome is not a function of the configuration (`Pipeline.OutcomeDependsOnSchedule`).
- `assignments/pa4/array.c:45-57`: the two early error returns keep the mutex; host names are taken to be short enough, and `sem_getvalue` to succeed.
- Threads are positions in their loops, not objects of their own, so aliasing between their private buffers is not captured.
- Weak memory: the unlocked counter's loads and stores are atomic steps.
- `pa1` to `pa3`, `copy_sim.c`, `syscall_demo.c`, the reentrancy and bounds parts of `thread_test.c`, `pager-lru.c`: plumbing or stubs, they would add only easy members.
