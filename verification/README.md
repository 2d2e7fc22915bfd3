# Verified model of a small simulated operating system

Three programs cooperate: the UMV, which serves segments of one flat memory;
the CPUs, which run AnSISOP programs whose call stacks live in UMV segments;
and the kernel, which moves processes between queues. They talk in packets.
This project models the four and proves what each keeps over whole runs.

**UMV.** `Segments`, `Compaction`, `Placement` and `UmvRuns` describe the byte
array and the segment list as a value and prove that they look like a map from
(owner, virtual address) to independent byte arrays: creation adds one entry,
a write changes one, destruction removes an owner's, compaction nothing.
`UmvMemory` is the program's own form, a class over an `array<byte>` and a list
changed in place, each method tied to the value functions. `UmvAccounts`
counts the bytes in use; `Loading` is the kernel's sequence of requests for one
program. `UmvFailures` holds inputs on
which the memory does lose bytes.

**CPU stack.** `CallStack` lays the stack out byte by byte and gives the
primitives; `StackRuns` proves that calls and returns undo each other at any
depth; `StackQuanta` that cutting a run into quanta on different CPUs cannot be
observed; `StackWoken` where a process goes on that blocked and is woken;
`StackOverflow` where an overflow is noticed and what follows;
`CpuMachine` is the class over a UMV segment.

**Kernel.** `Scheduler` is a machine of small steps, one for each wait, pop,
push and post of a thread and one for each handler of the thread that serves
the CPUs. `SchedulerCounts`, `SchedulerCensus`, `SchedulerCpus`,
`SchedulerPcbs`, `SchedulerWakeups` and `SchedulerOrder` prove invariants of
every interleaving; `SchedulerProgress` that no thread waits beside its work,
with the runs of `SchedulerTraces` and `SchedulerRounds`; `KernelMachine` is the class, whose `Valid()` is all of
them; `SchedulerFailures` and `SchedulerMishaps` hold runs from the start that
go wrong.

**Packets.** `Packets` gives framing and payloads as functions with their round
trips, up to a read or write request served by the UMV over two streams;
`PacketMachine` is the in-place form.

## Where the code does not do what is meant

The model follows the code. Where an intended property fails there is a lemma
with an input on which it fails, and the exact condition under which it holds.

* Compaction does not sort (proyectoUMV/umv.c:633-663) and the fits append
  (793, 800), so a list can be out of address order when it is compacted. All
  bytes are kept, whatever the memory holds, if and only if no live entry lies
  below the sum of the sizes of the live entries listed before it
  (`CompactionKeepsBytesIff`). A request larger than the memory skips the fits,
  hence the sort, and then compacts: after three one-byte creations, one of them
  in the place of a process destroyed, such a request loses a byte
  (`ThirdCreation`, `RefusalLosesBytes`).
* First-fit without a hole answers a virtual address that was never set (805,
  907). The retry looks at its sign: the fragmented request is served if and
  only if the value is negative (`FragmentedServedIff`, `FragmentedNotServed`).
* Worst-fit does not compare its hole with the request (865-883): the list
  stays consistent if and only if some hole has room (`WorstFitOutcome`,
  `WorstFitOverlaps`).
* The draw of a virtual address stops at the first number that is not zero
  (788-791): the list stays consistent if and only if that number is not an
  address of the same process already (`SplitValidIffFresh`,
  `SecondSegmentHidden`).
* A push compares the answer with a code the UMV never sends
  (proyectoCPU/stack.c:37): past the end of the segment the counter moves and
  nothing is written (`DefineBeyondSegment`). The overflow is noticed by the
  assignment to the cell answered, exactly then (`OverflowIsNoticedIff`). A definition does what it should
  if and only if its five bytes fit (`DefinesIff`), a call if and only if its
  eight or twelve do; a call that does not fit goes on and cannot be closed
  (`CallPlainIff`, `CallValuedIff`).
* `finalizar` on a context opened with a return address pops the wrong words
  (`FinishRestoresIff`).
* When a wait blocks, the kernel copies the node first and then fills the node
  with the packet's own header in place of the PCB
  (proyectoKernel/accionesParaCPU.c:68, 82, 96-100). Two things follow.
  - The blocked process keeps the node, and so the PCB, it was dispatched with
    (`BlocksWithDispatchedPcb`), and is dispatched with it again
    (`DispatchedAgainWithOldPcb`). It repeats its quantum from the start, over
    the values already assigned (`WokenRepeats`); it goes on where it blocked if
    and only if the quantum left no call open, defined nothing and led back to
    its first instruction (`WokenResumesIff`), for a quantum without jumps if and
    only if it ran no instruction at all (`StraightResumesIff`). If the quantum
    closed the context it was dispatched in, the process is in it again, over a
    link that its caller may have overwritten (`ClosedContextIsResumed`).
  - The node's pid becomes 11, the operation code (`PacketReadAsPcb`), and removal
    is by pid: every CPU stays in one place if and only if no node listed earlier
    runs pid 11 (`ExclusiveIffClear`, `TwoOwners`). Otherwise a node of process 11
    is left on a CPU that is free, and the next process sent to that CPU is handed
    back through it. The handlers store the pid that the CPU sends: each pid stays
    in exactly one place if and only if that is the pid of the node found
    (`PlacedIffTrusted`); else one process is in two places and another in none
    (`PidLost`).
* The dispatcher sends a process to its CPU before it lists the node
  (proyectoKernel/dispatcher.c:70-71). A message that comes in between finds no
  node: with nothing executing it is dropped, and the process stays listed on a
  CPU that runs nothing (`MessageOvertakesListing`); otherwise its handler uses a
  null node (`CrashIff`).
* An idle CPU that leaves takes its entry from the free list and not from the
  semaphore that counts it (proyectoKernel/pcp.c:85-88): the dispatcher then
  takes from the empty list (`IdleDepartureCrashes`). While others execute, its
  message has a null node (`IdleDepartureBesideOthers`).
* A blocking wait beside pid 11, a message without a node, an idle departure
  beside others and the take of a CPU that was dropped: these four steps, and no
  others, break the order of the kernel
  (`OrderlyIffRegular`).
* A process that is woken and ends before asking again loses the wake-up for
  the others if and only if every unit left was spoken for (`NoneLostIff`,
  `WakeupLost`).
* A packet without data is received as a closed connection
  (conitos-estaCoverflow/common_sockets.c:209-214): a sequence is read back if
  and only if every packet has data (`SequenceIsReadBackIff`). The UMV answers
  an empty read with one byte (proyectoUMV/umv.c:1279-1280), so its answers
  always arrive.

## Conventions

Integers are unbounded except words in bytes, the program counter, and values
and addresses stored in the stack, which are 32-bit. `Chance` is what a creation
gets from outside: an order the library sort may answer, the number drawn, and
the value of the unset field. Addresses in the UMV count from the start of the
managed memory. `memcpy` copies bytes upwards from the lowest. In the kernel
`image` stands for every field of a PCB but the pid, a CPU is its socket number,
and the order that a sort by weight answers comes with the arrival. `running` is
the pid of the process each CPU was sent, which is the pid in what it sends.
Runs that go wrong are given with the states they go through (`Reaches`, which
`ReachesIsRun` shows to be a run) and the ledgers of the semaphore (`Tells`,
`TellsIsHistory`).

## Model

| member | source | states |
|---|---|---|
| Segments.ReorderingIsInvisible | proyectoUMV/umv.c:717-720 | sorting the list by address, however ties fall, keeps it consistent and changes no byte array |
| Compaction.PackKeeps | proyectoUMV/umv.c:607-663 | copying downwards over overlapping ranges, no live entry is overwritten before it moves and each keeps its bytes, owner, address and size |
| Compaction.PackedIffSafe | proyectoUMV/umv.c:648-663 | the pass leaves the live entries without gaps exactly when none lies below its packed place |
| Compaction.SortedIsSafe | proyectoUMV/umv.c:739-739 | address order, which every fit establishes first, is enough for that |
| Compaction.CompactionIsInvisible | proyectoUMV/umv.c:633-691 | under that condition compaction changes no byte array of the map |
| Compaction.CompactedLive | proyectoUMV/umv.c:633-691 | of any list, safe or not, the live entries stay in order with owner, address and size, where the pass puts them |
| Compaction.PassKeepsBytesIff | proyectoUMV/umv.c:648-663 | the pass keeps every live byte for all contents of memory if and only if the condition holds |
| Compaction.CompactionKeepsBytesIff | proyectoUMV/umv.c:633-691 | after compaction each live segment has its bytes, for all contents of memory, if and only if the condition holds |
| Compaction.UnsafeLosesBytes | proyectoUMV/umv.c:648-663 | when it fails there are contents that compaction damages |
| Compaction.CompactedShape | proyectoUMV/umv.c:665-690 | live entries packed from the start in their old order; the only hole, if any, is last and holds all free bytes |
| Compaction.CompactedIsValid | proyectoUMV/umv.c:633-691 | disjoint entries with distinct ids that cover the memory, after compaction as before |
| Compaction.CompactionIsIdempotent | proyectoUMV/umv.c:633-691 | a second compaction moves no live entry and changes no byte |
| Placement.FirstHoleIsLowest | proyectoUMV/umv.c:774-783 | first-fit takes the hole of lowest address among those with room |
| Placement.FirstFitOutcome | proyectoUMV/umv.c:738-806 | only that hole is split and one fresh byte array appears; without a hole nothing changes but the order |
| Placement.WorstHoleIsLargest | proyectoUMV/umv.c:847-862 | worst-fit takes the hole of lowest address among the largest |
| Placement.WorstFitOutcome | proyectoUMV/umv.c:808-888 | the result is consistent if and only if some hole has room, and then one byte array appears |
| Placement.SplitAddsOne | proyectoUMV/umv.c:780-801 | splitting a hole with room keeps ids distinct, entries disjoint and the sum of sizes, and adds exactly one array |
| Placement.SplitValidIffFresh | proyectoUMV/umv.c:788-792 | the list stays consistent if and only if the number drawn is new for the process |
| UmvRuns.ReadIsSlice | proyectoUMV/umv.c:329-354 | a read answers the slice of its array, or nothing when it does not fit or does not exist |
| UmvRuns.WriteUpdatesOne | proyectoUMV/umv.c:356-377 | a write changes the one array named, and only when it fits |
| UmvRuns.DestroyRemovesOwner | proyectoUMV/umv.c:580-592 | destruction removes exactly the arrays of the process |
| UmvRuns.RefusedIffFull | proyectoUMV/umv.c:1129-1188 | create, else compact and retry: refused if and only if used bytes plus request exceed the memory; refusal changes no array |
| UmvRuns.FragmentedServedIff | proyectoUMV/umv.c:1151-1188 | in a fragmented memory a request that would fit is served if and only if the unset address is negative |
| UmvRuns.StepLooks | proyectoUMV/umv.c:1074-1208 | every message keeps the list consistent and acts on the map of independent arrays as it should |
| UmvRuns.UntouchedSurvives | proyectoUMV/umv.c:1074-1290 | over any run an array changes only by writes to its key and goes only with its owner |
| UmvRuns.WrittenIsReadBack | proyectoUMV/umv.c:329-377 | bytes written are read back after any run that does not touch the segment |
| UmvAccounts.RequestUses | proyectoUMV/umv.c:1129-1188 | a request granted uses its size and one refused nothing, whichever fit, retry and compaction served it |
| UmvMemory.Memory.constructor | proyectoUMV/umv.c:917-923 | an empty, consistent memory |
| UmvMemory.Memory.LowerEntry | proyectoUMV/umv.c:658-660 | an entry moves only when it lies above the end of the one before |
| UmvMemory.Memory.PlaceFirst | proyectoUMV/umv.c:750-773 | the first segment and the hole after it |
| UmvMemory.Memory.PlaceIn | proyectoUMV/umv.c:784-801 | append, remove, append: the list with the hole split |
| UmvMemory.Memory.LargestHole | proyectoUMV/umv.c:847-862 | the loop finds the first of the largest holes |
| UmvMemory.Memory.Lookup | proyectoUMV/umv.c:337-342 | the first entry with that virtual address and owner |
| UmvMemory.Memory.MoveDown | proyectoUMV/umv.c:607-613 | the ascending copy in place is the overwrite the value model states, and the entry follows |
| UmvMemory.Memory.RemoveHoles | proyectoUMV/umv.c:615-631 | the loop that lowers its own index and bound terminates and is an order-preserving filter |
| UmvMemory.Memory.UsedBytes | proyectoUMV/umv.c:693-705 | the sum of the sizes of live entries |
| UmvMemory.Memory.PackAll | proyectoUMV/umv.c:648-663 | the in-place loop computes the packed list and bytes |
| UmvMemory.Memory.Compact | proyectoUMV/umv.c:633-691 | in place, array and list become the compacted state |
| UmvMemory.Memory.FirstFit | proyectoUMV/umv.c:738-806 | the flagged loop over the list does what first-fit is specified to do |
| UmvMemory.Memory.WorstFit | proyectoUMV/umv.c:808-888 | likewise for worst-fit |
| UmvMemory.Memory.Create | proyectoUMV/umv.c:890-915 | one attempt, guarded by the bytes in use |
| UmvMemory.Memory.RequestSegment | proyectoUMV/umv.c:1129-1188 | attempt, compaction and retry, in place |
| UmvMemory.Memory.Destroy | proyectoUMV/umv.c:580-592 | the owner's entries become holes, the rest is unchanged |
| UmvMemory.Memory.Read | proyectoUMV/umv.c:329-354 | the bytes of the first entry with that key when they fit |
| UmvMemory.Memory.Write | proyectoUMV/umv.c:356-377 | the bytes are copied into that entry when they fit, and nothing else changes |
| UmvFailures.RefusalLosesBytes | proyectoUMV/umv.c:1151-1188 | a refused request compacts an unsorted list and a process reads another's byte |
| UmvFailures.FirstCreation | proyectoUMV/umv.c:748-773 | the first of three creations that lead to the unsorted list |
| UmvFailures.SecondCreation | proyectoUMV/umv.c:774-803 | the second |
| UmvFailures.ThirdCreation | proyectoUMV/umv.c:780-801 | three creations and a destruction reach that unsorted list |
| UmvFailures.WorstFitTaken | proyectoUMV/umv.c:865-883 | a creation under worst-fit leads on to holes of one byte |
| UmvFailures.WorstFitOverlaps | proyectoUMV/umv.c:865-883 | the next request, of two bytes, is placed over another process |
| UmvFailures.FragmentedNotServed | proyectoUMV/umv.c:895-907 | a request that would fit is answered with the unset address and gets no segment |
| UmvFailures.SecondSegmentHidden | proyectoUMV/umv.c:788-792 | a number drawn twice gives a process two segments of which it reaches one |
| Loading.RejectionRestores | proyectoKernel/plp.c:157-187 | whatever was created before a request failed, destroying the new process gives the memory map back |
| Loading.GrantedStays | proyectoKernel/plp.c:157-166 | each request granted is a new array of the size asked, still there after the last |
| Loading.GrantedAreApart | proyectoKernel/plp.c:157-166 | no two segments of a program have the same address |
| Loading.OneRequest | proyectoUMV/umv.c:1129-1144 | a request of size 0 is answered with -1 under the normal code and changes nothing; a positive one is refused if and only if it does not fit |
| Loading.RejectedIff | proyectoKernel/plp.c:157-187 | a program is rejected if and only if all it asks for is more than was free, whatever the order of its requests and the empty ones among them |
| CallStack.ChainEndsAtBase | proyectoCPU/primitivas.c:219-245 | saved stack pointers strictly decrease to the base; pointer equals base exactly in the outermost context |
| CallStack.SetImage | proyectoCPU/primitivas.c:124-138 | writing a value cell changes that variable of that context and no other byte of any |
| StackRuns.DefineGrows | proyectoCPU/primitivas.c:70-84 | a definition adds one variable to the running context and answers its value cell |
| StackRuns.DefinedIsFound | proyectoCPU/primitivas.c:70-103 | the position answered is the one the dictionary gives, and what is assigned there reads back |
| StackRuns.DefineBeyondSegment | proyectoCPU/stack.c:29-42 | past the segment's end the counter moves, nothing is written and no error is raised |
| StackRuns.DefinesIff | proyectoCPU/primitivas.c:70-84 | a definition adds its variable if and only if name and cell fit in the segment |
| StackRuns.CallPlainIff | proyectoCPU/primitivas.c:182-194 | a call opens its context if and only if both words fit; otherwise it goes on and cannot be closed |
| StackRuns.CallValuedIff | proyectoCPU/primitivas.c:196-217 | likewise for the three words of a call with value |
| StackOverflow.AssignStopsIff | proyectoCPU/primitivas.c:124-138 | an assignment stops the process with a stack overflow if and only if the cell is outside the segment, and writes nothing then |
| StackOverflow.OverflowIsNoticedIff | proyectoCPU/primitivas.c:70-138 | the assignment to the cell that a definition answered stops the process if and only if the variable did not fit |
| StackOverflow.StoppedForGood | proyectoCPU/primitivas.c:70-258 | from then on no run of primitives changes the segment, the stack fields, the names or the state |
| StackRuns.DictFindsLast | proyectoCPU/primitivas.c:86-103 | a name leads to the variable of that name defined last |
| StackRuns.CallPlainPushes | proyectoCPU/primitivas.c:182-194 | a call opens an empty context above intact ones, its two saved words laid end to end |
| StackRuns.CallValuedPushes | proyectoCPU/primitivas.c:196-217 | likewise with the address to answer to |
| StackRuns.FinishUndoes | proyectoCPU/primitivas.c:219-245 | closing a context restores stack pointer, counter, program counter and names of the caller |
| StackRuns.ReturnUndoes | proyectoCPU/primitivas.c:247-258 | the same, with the value in the caller's target cell and no other cell changed |
| StackRuns.FinishRestoresIff | proyectoCPU/primitivas.c:219-258 | `finalizar` restores the caller if and only if the context was opened without value |
| StackRuns.FinishEndsOnlyOutermost | proyectoCPU/primitivas.c:219-227 | `finalizar` ends the process if and only if no call is open |
| StackRuns.MigrationIsInvisible | proyectoCPU/common_execution.c:44-111 | the dictionary rebuilt from PCB and bytes is the one kept while defining |
| StackRuns.ExecGrows | proyectoCPU/primitivas.c:38-258 | over any properly nested run every caller's names, links and pointers stay and values change only where assigned |
| StackRuns.CallUndone | proyectoCPU/primitivas.c:182-245 | a call and its `finalizar`, at any depth and with any nested body, undo each other |
| StackRuns.FunctionAnswers | proyectoCPU/primitivas.c:196-258 | a call with value and its `retornar` do so and leave the value in the target |
| StackRuns.EndsOnlyOutermost | proyectoCPU/primitivas.c:219-227 | after any nested run the next `finalizar` ends the process exactly at depth zero |
| StackQuanta.QuantaAreInvisible | proyectoCPU/CPU.c:182-201 | a run preempted anywhere, any number of times, ends as one uninterrupted sequence of primitives |
| StackWoken.WokenRepeats | proyectoKernel/semaforos.c:3-10 | woken after any quantum that stays within it, a process is in the context as dispatched, at the instruction it was dispatched at, over the values assigned since |
| StackWoken.WokenResumesIff | proyectoKernel/semaforos.c:3-10 | that is where it blocked if and only if no call is open, nothing was defined and the instructions lead back to the first |
| StackWoken.StraightResumesIff | proyectoKernel/semaforos.c:3-10 | a quantum without jumps is resumed where it blocked if and only if it ran no instruction |
| StackWoken.ClosedContextIsResumed | proyectoCPU/primitivas.c:219-245 | a quantum that closed its context resumes in it, and its link restores the caller if and only if the byte written over it is the same |
| CpuMachine.SoundIsReady | proyectoCPU/primitivas.c:219-258 | in every state the theorems reach, each primitive finds what it pops and rebuilds |
| CpuMachine.UnknownIffNotFound | proyectoCPU/primitivas.c:86-103 | the answer for an unknown name is -1 as an address, and the position of no variable |
| CpuMachine.Machine.WriteStack | proyectoCPU/stack.c:33-39 | a write request changes the stack's bytes when it fits, and no other segment |
| CpuMachine.Machine.PushLink | proyectoCPU/primitivas.c:38-54 | stack pointer, then program counter one byte earlier than the count of pushes says |
| CpuMachine.Machine.ChangeContext | proyectoCPU/stack.c:70-75 | the pointer moves past the context and the link, the count restarts, the names go |
| CpuMachine.Machine.ResetContext | proyectoCPU/stack.c:77-80 | the caller's count from the distance between the pointers |
| CpuMachine.StackSurvives | proyectoCPU/common_execution.c:44-54 | a process in a queue is taken up as it was handed back, whatever the UMV does for others meanwhile |
| CpuMachine.Machine.Push | proyectoCPU/stack.c:29-42 | one write request into the UMV segment and one count, whatever the answer |
| CpuMachine.Machine.PopWord | proyectoCPU/stack.c:44-55 | the word at an offset from the stack pointer |
| CpuMachine.Machine.Define | proyectoCPU/primitivas.c:70-84 | the specified definition, no other segment changed |
| CpuMachine.Machine.Position | proyectoCPU/primitivas.c:86-103 | one past the dictionary's position, or the unsigned form of -1 |
| CpuMachine.Machine.Dereference | proyectoCPU/primitivas.c:105-122 | the word in the cell, or 0 once the state is not normal |
| CpuMachine.Machine.Assign | proyectoCPU/primitivas.c:124-138 | the cell is written; the state becomes stack overflow if and only if the cell is outside the segment, which is then unchanged |
| CpuMachine.Machine.CallPlain | proyectoCPU/primitivas.c:182-194 | the specified call, no other segment changed |
| CpuMachine.Machine.CallValued | proyectoCPU/primitivas.c:196-217 | the specified call with value |
| CpuMachine.Machine.Finish | proyectoCPU/primitivas.c:219-245 | the specified closing, dictionary rebuilt from the segment |
| CpuMachine.Machine.Return | proyectoCPU/primitivas.c:247-258 | the specified answer and closing |
| CpuMachine.Machine.FillDictionary | proyectoCPU/common_execution.c:90-111 | the loop's dictionary is the rebuilt one, later names replacing earlier |
| CpuMachine.Machine.RebuildDictionary | proyectoCPU/common_execution.c:44-54 | only the dictionary changes, to the one the bytes give |
| CpuMachine.Machine.TakeUp | proyectoCPU/CPU.c:182-188 | the process another CPU makes of PCB and segment |
| SchedulerCounts.StepCounts | proyectoKernel/globals.c:57-95 | every counting semaphore plus threads past their wait, less posts owed, is its list's length; the degree is conserved |
| SchedulerCounts.CrashIff | proyectoKernel/pcp.c:94-122 | a step uses a null node if and only if a handler finds no node while others are listed, or the dispatcher takes a CPU whose entry was dropped |
| SchedulerCounts.NeverAboveDegree | proyectoKernel/plp.c:94-116 | semaphore, token and active processes sum to the degree in every run, so admitted ones never exceed it |
| SchedulerCounts.NeverTakesFromEmpty | proyectoKernel/dispatcher.c:11-32 | without idle departures no thread ever takes from an empty list; the only null node is one a handler does not find |
| SchedulerCensus.StepPlaces | proyectoKernel/globals.c:45-100 | no step of any thread loses or duplicates a pid, except that a process handed back counts under the pid its CPU sends |
| SchedulerCensus.PlacedIffTrusted | proyectoKernel/accionesParaCPU.c:28-42 | a step keeps each pid in exactly one place if and only if the node found for a process handed back is its own |
| SchedulerCensus.EveryPidInOnePlace | proyectoKernel/plp.c:40-116 | in every interleaving of such steps each pid ever queued is in exactly one place and no other pid anywhere |
| SchedulerCpus.ExclusiveIffClear | proyectoKernel/accionesParaCPU.c:62-108 | a step keeps every CPU in at most one place if and only if it is not a blocking wait with pid 11 listed earlier |
| SchedulerCpus.OrderlyIffRegular | proyectoKernel/pcp.c:94-122 | one place for each pid and CPU, each CPU running the process of its node, nothing ignored, no null node: a step keeps all of it if and only if it is none of the four named |
| SchedulerCpus.EveryCpuInOnePlace | proyectoKernel/dispatcher.c:34-76 | in runs without these each CPU is in one place and what it sends is handled for the process it runs |
| SchedulerCpus.LeavesByItself | proyectoKernel/pcp.c:78-92 | a CPU that leaves idle takes its own entry from the free list; the others stay, in order and in their places |
| SchedulerPcbs.BlocksWithDispatchedPcb | proyectoKernel/semaforos.c:3-10 | whatever else happens until it blocks and whatever PCB its CPU sends, a process waits with the node it was dispatched with |
| SchedulerCpus.HandsBackSentPcb | proyectoKernel/accionesParaCPU.c:28-42 | every other departure queues the process, at the end, with the PCB its CPU sent |
| SchedulerWakeups.ValueBalances | proyectoKernel/semaforos.c:21-47 | value is first value plus signals less successful waits and never falls below zero |
| SchedulerWakeups.StepKeepsPending | proyectoKernel/semaforos.c:21-33 | every process woken is alive and not blocked there until it asks again or ends |
| SchedulerWakeups.NoneLostIff | proyectoKernel/semaforos.c:21-47 | woken processes cover the value while others are blocked; a step breaks it if and only if a woken process ends with its unit unclaimed |
| SchedulerWakeups.NoLostWakeup | proyectoCPU/primitivas.c:313-330 | whenever a positive semaphore has blocked processes, a live woken process is yet to ask |
| SchedulerOrder.RunKeepsSorted | proyectoKernel/plp.c:40-53 | the list of new processes is ordered by weight throughout every run |
| SchedulerOrder.AdmitsLeastWeight | proyectoKernel/plp.c:94-111 | each admission takes a process of least weight and leaves the others |
| SchedulerOrder.PositionAfter | proyectoKernel/globals.c:74-82 | the place of a ready process falls only by the dispatcher's takes |
| SchedulerOrder.ReadyStep | proyectoKernel/globals.c:74-82 | every step only appends to the ready queue, except the dispatcher's take of its first |
| SchedulerOrder.BoundedWaiting | proyectoKernel/dispatcher.c:11-20 | a process with k ahead is taken by the dispatcher's take k + 1, whatever arrives behind it |
| SchedulerOrder.CpuServesInTurn | proyectoKernel/globals.c:57-66 | a CPU freed while k are free is given a process by take k + 1, unless an idle CPU leaves |
| SchedulerOrder.WokenInTurn | proyectoKernel/semaforos.c:21-33 | a process with k blocked before it is woken by signal k + 1 |
| SchedulerOrder.DeviceServesInTurn | proyectoKernel/entradaSalida.c:20-36 | a process with k ahead of it at a device is served by the device's take k + 1 |
| SchedulerOrder.RemovesExactlyThatNode | proyectoKernel/globals.c:45-55 | in every run in which processes are handed back through their own nodes, removal by pid takes exactly its node |
| SchedulerProgress.WaitsPassIff | proyectoKernel/entradaSalida.c:29-36 | each wait passes exactly when there is something to take: a new process, a ready one, a free CPU, one at the device, one that ended |
| SchedulerProgress.TokenPassesIff | proyectoKernel/plp.c:102-102 | the admitting thread gets its token exactly while fewer processes are active than the degree |
| SchedulerProgress.StopsOnlyAtRest | proyectoKernel/dispatcher.c:63-76 | the threads of the kernel can all not step if and only if nothing is in hand and what is queued waits for room, for a CPU or for a program |
| SchedulerProgress.CanArrive | proyectoKernel/plp.c:40-53 | a program can be queued in order whenever the last one has been posted |
| SchedulerProgress.CpusMaySpeak | proyectoKernel/pcp.c:94-122 | a CPU with a process may send any message that names what exists and may not leave as idle; a free one may leave and says nothing else |
| SchedulerProgress.IncomingDrains | proyectoKernel/plp.c:94-116 | the steps of the admitting thread alone make ready as many new processes as the degree has room for, in order |
| SchedulerProgress.ReadyDrains | proyectoKernel/dispatcher.c:63-76 | the steps of the dispatcher alone list as many ready processes as there are free CPUs, the first on the first |
| SchedulerProgress.EndedDrains | proyectoKernel/plp.c:68-92 | the steps of the destroying thread alone destroy all that ended, in order |
| SchedulerProgress.DeviceDrains | proyectoKernel/entradaSalida.c:52-74 | the steps of a device's thread alone make a process with k ahead of it ready, after those ahead |
| SchedulerProgress.ServedEventually | proyectoKernel/entradaSalida.c:52-74 | wherever the device's thread is in its round, a process at the device has a run of that thread at whose end it is ready |
| SchedulerProgress.LifeOfAProcess | proyectoKernel/plp.c:40-116 | for all degrees, semaphores and devices a run from the start takes a process through admission, a CPU, any device, a CPU again, its end and its destruction, and leaves all else as it was |
| SchedulerMishaps.IdleDepartureCrashes | proyectoKernel/pcp.c:78-92 | a run from the start in which idle departures make the dispatcher take from the empty list |
| SchedulerMishaps.IdleDepartureBesideOthers | proyectoKernel/pcp.c:104-112 | a run from the start in which an idle departure beside a process uses a null node |
| SchedulerMishaps.MessageOvertakesListing | proyectoKernel/dispatcher.c:63-76 | a run from the start in which a message is dropped and a process stays listed on a CPU that runs nothing |
| SchedulerMishaps.DispatchedAgainWithOldPcb | proyectoKernel/accionesParaCPU.c:90-108 | a run from the start that dispatches a woken process with the PCB of its last dispatch |
| SchedulerFailures.TwoOwners | proyectoKernel/accionesParaCPU.c:79-88 | a run from the start whose blocking wait beside process 11 leaves a CPU free and executing at once, and one in no place |
| SchedulerFailures.PidLost | proyectoKernel/accionesParaCPU.c:28-42 | the run goes on to a state with one process in two places and process 11 in none |
| SchedulerMishaps.WakeupLost | proyectoKernel/globals.c:84-95 | a run from the start in which a woken process ends and another stays blocked on a positive semaphore that nobody will ask |
| KernelMachine.KernelState.constructor | proyectoKernel/kernelPosta.c:203-217 | the kernel at the start, in which the whole invariant holds |
| KernelMachine.KernelState.Enqueue | proyectoKernel/plp.c:40-60 | the new process has a pid no other had and is in exactly one place, in a list still ordered by weight; invariant kept |
| KernelMachine.KernelState.Reject | proyectoKernel/plp.c:169-187 | a program refused spends a pid that is nowhere and that no process will have; invariant kept |
| KernelMachine.KernelState.AwaitDegree | proyectoKernel/plp.c:102-102 | passes when fewer processes are active than the limit allows, and leaves room for one; invariant kept |
| KernelMachine.KernelState.AwaitNew | proyectoKernel/plp.c:103-103 | passes when a new process has been posted; past it the list is not empty; invariant kept |
| KernelMachine.KernelState.TakeShortest | proyectoKernel/plp.c:104-106 | exactly one process, of least weight among all that waited, leaves the list; the node taken is never null |
| KernelMachine.KernelState.PushAdmitted | proyectoKernel/plp.c:108-110 | one more process is active, at the end of the ready queue, and never more than the limit; invariant kept |
| KernelMachine.KernelState.TakeFinished | proyectoKernel/plp.c:74-78 | the process that ended first, which is never null; invariant kept |
| KernelMachine.KernelState.DestroyFinished | proyectoKernel/plp.c:79-89 | the process destroyed is in no other place; invariant kept |
| KernelMachine.KernelState.TakeProcess | proyectoKernel/dispatcher.c:11-20 | the process that became ready first, which is never null; invariant kept |
| KernelMachine.KernelState.AwaitFinished | proyectoKernel/plp.c:74-74 | passes when a process has ended; invariant kept |
| KernelMachine.KernelState.AwaitProcess | proyectoKernel/dispatcher.c:14-14 | passes when a process is ready and posted; invariant kept |
| KernelMachine.KernelState.AwaitFreeCpu | proyectoKernel/dispatcher.c:22-26 | passes when a CPU is free or was dropped; past it a CPU is free unless its entry was dropped, and exactly then |
| KernelMachine.KernelState.TakeFreeCpu | proyectoKernel/dispatcher.c:22-32 | the CPU freed first; the invariant is kept if and only if its entry was not dropped |
| KernelMachine.KernelState.SendPcb | proyectoKernel/dispatcher.c:43-53 | the CPU runs the process and has no other node; invariant kept |
| KernelMachine.KernelState.AddToExecutingList | proyectoKernel/dispatcher.c:55-61 | the node listed is the only one of its CPU and the one handlers find; invariant kept |
| KernelMachine.KernelState.RemoveFromExecutingList | proyectoKernel/globals.c:45-55 | the search loop removes the first node with the pid and no other |
| KernelMachine.KernelState.Stop | proyectoKernel/globals.c:97-100 | the node goes and its CPU is free |
| KernelMachine.KernelState.Exit | proyectoKernel/globals.c:84-95 | ended, counted and freed before it is removed |
| KernelMachine.KernelState.SemaphoreSignal | proyectoKernel/semaforos.c:21-33 | one unit more, and the first blocked process ready |
| KernelMachine.KernelState.SemaphoreWait | proyectoKernel/semaforos.c:35-47 | one unit less, or a copy of the node blocked |
| KernelMachine.KernelState.LookUp | proyectoKernel/pcp.c:100-108 | the first node of the executing list on that socket |
| KernelMachine.KernelState.Fetch | proyectoKernel/pcp.c:94-122 | the node of the CPU that sent a message; without one the message is dropped or its handler crashes |
| KernelMachine.KernelState.WaitAt | proyectoKernel/accionesParaCPU.c:62-108 | a wait on a node, in the order of copy, overwrite and removal |
| KernelMachine.KernelState.OnWait | proyectoKernel/accionesParaCPU.c:90-108 | the invariant is kept if and only if a node is found and no node listed before it has pid 11 when it blocks |
| KernelMachine.KernelState.OnSignal | proyectoKernel/accionesParaCPU.c:44-51 | the signal of the semaphore named; the invariant is kept if and only if a node is found |
| KernelMachine.KernelState.OnQuantumEnd | proyectoKernel/accionesParaCPU.c:28-42 | the process is ready again with the PCB sent; the invariant is kept if and only if a node is found |
| KernelMachine.KernelState.OnDevice | proyectoKernel/accionesParaCPU.c:187-201 | the process joins the device's queue with the PCB sent; likewise |
| KernelMachine.KernelState.OnProcessEnd | proyectoKernel/accionesParaCPU.c:110-123 | the process ends, for a finish as for an exception; likewise |
| KernelMachine.KernelState.OnDisconnection | proyectoKernel/accionesParaCPU.c:228-244 | the process is ready again and its CPU is gone; likewise |
| KernelMachine.KernelState.OnConnection | proyectoKernel/pcp.c:31-66 | the CPU is free and in no other place; invariant kept |
| KernelMachine.KernelState.OnIdleDisconnection | proyectoKernel/pcp.c:78-92 | the CPU is in no place and every other where it was, the semaphore stays; the invariant is kept if and only if nothing executes |
| KernelMachine.KernelState.AwaitBlocked | proyectoKernel/entradaSalida.c:29-31 | passes when a process is at the device, be it only one; invariant kept |
| KernelMachine.KernelState.TakeBlocked | proyectoKernel/entradaSalida.c:29-36 | the process that came to the device first, which is never null; invariant kept |
| KernelMachine.KernelState.PushServed | proyectoKernel/entradaSalida.c:52-74 | the process served is the last of the ready ones and in no other place; invariant kept |
| Packets.OneIsReadBack | conitos-estaCoverflow/common_sockets.c:51-74 | a packet at the head of a stream is received whole if and only if it has data, and the reader is at the next one either way |
| Packets.EachIsReadBack | conitos-estaCoverflow/common_sockets.c:182-218 | every packet of a stream is received as itself or, without data, as closed |
| Packets.SequenceIsReadBackIff | conitos-estaCoverflow/common_sockets.c:182-218 | a sequence of packets is read back as itself if and only if all have data |
| Packets.WriteRequestRoundTrip | proyectoCPU/decoracionDePaquetesCPU.c:46-57 | base, offset, size and bytes packed by the CPU are those the UMV unpacks, the base if and only if it is below 2^31 |
| Packets.ReadRequestRoundTrip | proyectoCPU/decoracionDePaquetesCPU.c:59-69 | likewise for a read |
| Packets.RequestsOnTheWire | proyectoCPU/decoracionDePaquetesCPU.c:46-69 | the bytes of a read and of a write request, with their codes and lengths |
| Packets.WriteOverTheWire | proyectoUMV/umv.c:1226-1256 | a write sent, received, served and answered changes the one array; the code received tells a write done from one refused, and is never the one that pushes test |
| Packets.ReadOverTheWire | proyectoUMV/umv.c:1257-1283 | a read answered over the stream is the slice, an empty one arriving as one byte; the code received tells it from a refusal |
| Packets.IoRequestRoundTrip | proyectoKernel/entradaSalida.c:10-18 | PCB, device name and time handed back by a CPU are those the kernel finds |
| Packets.PacketReadAsPcb | proyectoKernel/accionesParaCPU.c:62-77 | the packet that hands a waiting process back, read as a PCB, has pid 11: the pid sent if and only if that is 11 |
| Packets.SharedAssignmentRoundTrip | proyectoCPU/decoracionDePaquetesCPU.c:71-77 | an assignment to a shared variable sent over a stream arrives with the name and value packed |
| PacketMachine.Message.Append | conitos-estaCoverflow/common_sockets.c:25-34 | the data in a new buffer is the old data and then the extra |
| PacketMachine.Message.constructor | conitos-estaCoverflow/common_sockets.c:36-45 | a packet with a copy of the data |
| PacketMachine.Message.Serialize | conitos-estaCoverflow/common_sockets.c:51-57 | the stream is the header and then the data |
| PacketMachine.ReceivePacket | conitos-estaCoverflow/common_sockets.c:182-218 | header, then as many bytes as it announces, with the null answers of the code |

## Left out

- Sockets, accept and poll loops, handshakes, signals, configuration, logs, dumps, console and sleeps: input and output.
- The resending loop of `common_send` (conitos-estaCoverflow/common_sockets.c:158-174): delivery is a reliable stream of bytes. A stream that ends inside a packet is `Broken`; what the reader makes of its uninitialised buffer is not said.
- The AnSISOP parser, the library lists, sorts and dictionaries, and `rand`: programs are sequences of primitives, the sort and the draw are inputs.
- Shared variables in the kernel, texts printed, and the poll array: nothing else depends on them.
- malloc and free, and wrap-around of UMV addresses and of the kernel's 32-bit counters.
- UMV requests with a negative offset or count, which read and write outside the segment; requests by a process id that is not positive.
- UmvRuns.RefusedIffFull: assumes a fresh number drawn, a list safe to compact when the memory is full, and in worst-fit a hole with room; each of these is exact by `SplitValidIffFresh`, `CompactionKeepsBytesIff` and `WorstFitOutcome`.
- SchedulerWakeups.NoLostWakeup: for runs without the four steps of `OrderlyIffRegular` in which no woken process ends with its unit unclaimed; `NoneLostIff` says that the latter is exact step by step.
- SchedulerCounts.StepCounts: a push and its post inside a handler are one step; in the other threads they are two.
- UmvMemory.Memory.Create: an entry is a value in the list; entries shared by two pointers do not occur in the program.
- CpuMachine.Machine.Finish: the words popped must lie in the segment; on other words the division by five is the mathematical one, where the program's is unsigned. Disconnection by signal (the state that no other replaces) is not modelled.
- CpuMachine.Machine.WriteStack: addresses below the base, or 2^31 and more above it, make a negative offset, which the UMV does not check; so does assigning to the position of an unknown name. Every value cell of a process that is where its frames say is in reach (`SoundIsReady`).
- StackWoken.WokenRepeats: a quantum that closes the context it was dispatched in is described by `ClosedContextIsResumed` for one return and one definition.
- StackQuanta.QuantaAreInvisible: the loop that counts the quantum down is modelled by where a run is resumed; blocking calls of a primitive (wait, device) are the kernel's steps.
- KernelMachine.KernelState.OnWait: a node is a value at its place in the list; the pointer to it that handlers hold is that place.
- SchedulerCensus.EveryPidInOnePlace: handlers are one step each, because one thread runs them all.
- A message that names an unknown semaphore or device, and the departure of an idle CPU on which a node was left: the kernel uses a null or foreign node there.
- The time that a device takes: a process is served until its thread pushes it back.
