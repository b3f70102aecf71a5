# Evidence machinery, modelled and proved

Supercov turns "this ran" into bytes and records, and spends questions on the
result. This project models the parts where that is hardest to get right and
proves what they are for.

- **Probes.** A Python function is rewritten so that its stores say which
  statements ran, how tests came out and which loops were entered, while probes
  that another probe implies are left out (`AstTransform`). Standalone `and`/`or`
  expressions keep a stack of open evaluations in which an inner one may take an
  outer one's frame (`BooleanOperators`). Decisions rebuild one base-3 vector per
  evaluation through recursive calls, in Python (`PythonDecisions`) and in Ruby
  (`RubyDecisions`), over the same trees (`ConditionTrees`), the same nested runs
  (`NestedDecisions`) and, in Python, the same region bytes (`DecisionVectors`).
  Events of different keys interleave freely (`KeyedRuns`).
- **Slots.** Every obligation and every vector of a run has one byte of a slot
  (`SlotLayout`), and what the transform leaves out is what the reader adds
  (`ProgramProbes`). Slots are handed out at the first probe, harvested while probes
  go on storing, reclaimed, reused and closed (`SlotLifecycle`); one harvest finds
  runs, clears them and writes them in chunks (`Harvest`).
- **Records.** Records go to a file of framed payloads whose commit byte is stored
  last, by positioned writes or through a mapping (`Transport`), also when the
  process is killed (`KilledProcess`) or a write is refused half way
  (`RefusedWrite`), as JSON written without the json package (`FlatJson`,
  `FlatTexts`). The Ruby runtime queues first sightings closed under what they imply (`Observations`), with vectors that are the decisions'
  own (`ImpliedVectors`), and names each id once per file (`HitRecords`).
- **Positions.** Ruby's load-time repair splices insertions into a source and
  separately computes where every position lands (`LoadTime`).
- **Questions.** The assertion pass plans greedy batches of statement-test
  questions (`AssertionPlan`, `PlanChoice`), splits them under two token limits
  (`RequestLimits`), saves the answers for later passes (`SavedAnswers`), and repeats
  over widening rounds until nothing it offers is left to ask (`AssertionPass`,
  `AssertionOffers`, `AssertionRun`).

Runs are nested where the theorems say so: nesting is induction over a tree of
evaluations, and everything an exception cuts short is outside it. The transform
is proved over an arbitrary world: what effects, tests and iterators do, and to
what state, are parameters, and the number of loop iterations is bounded by a
number that every theorem quantifies over. Checksums, token estimates, the orders
in which tests are chosen, the keys of saved answers and the replies to requests
are function parameters. Where the source changes things in place, methods do the
same and are proved against functions; the theorems are about those functions.
Lemmas carry `{:induction false}`: every induction is written out.

Where code and documentation part, the model follows the code:

- The transport writer says a killed process leaves a file the reader takes.
  `KilledProcess.KilledProcessIsReadable` says after which of its stores it does.
  The others: before the process id is in the header; between the third and fourth
  byte of a capacity field whose growth crosses 16 MiB, where the header declares a
  capacity of 0 and the whole file is refused; and once a record was dropped, which
  the reader reports. That count can be forgotten: while 255 becomes 256, or 65535
  becomes 65536, there is a store after which it reads as 0 and the file as whole
  (`KilledProcess.ForgottenCount`).
- A positioned write that the system refused half way leaves bytes behind the
  cursor. `RefusedWrite.NextAfterRefused` says exactly when the next record hides
  them; where it does not the reader refuses the file (`RefusedWrite.LeftoverIsRefused`).
- `_Decision.implied` judges an operand by the operand right before it, not by all
  earlier ones. What its docstring says is true of an operator's second operand and
  of no other (`ConditionTrees.OnlySecondOperandIsSaid`).
- Closing harvests every live slot, yet a byte stored while it does can be lost. It is
  recorded if and only if its slot's last harvest had not come past it
  (`SlotLifecycle.OnlyTimelyStoresAreRecorded`, `SlotLifecycle.LateStoreIsLost`).
- The reports of standalone expressions are exact as long as no frame had to be
  dropped, and dropped frames are exactly what they lack
  (`BooleanOperators.NestedRunsAreAccountedFor`). 64 open evaluations drop none; 65
  can (`BooleanOperators.OneMoreMisreports`).
- A span that starts right where a wrapped one ends holds its closer in the output
  (`LoadTime.WrappersBeside`).
- An empty span can end before it starts once edits are in place;
  `LoadTime.EmptySpanOrder` says exactly when.

## Model

| member | source | states |
|---|---|---|
| `BooleanOperators.NestedRunsAreAccountedFor` | runtime/python/supercov_runtime.py:1203-1224 | For every properly nested run, of any depth: no frame is left, and the closed frames holding an operand fall short of the evaluations that evaluated it by exactly the dropped frames holding it; so which reports are made, right or wrong, is known exactly |
| `BooleanOperators.CountsAreExactUnlessDropped` | runtime/python/supercov_runtime.py:1209-1213 | The closed frames count every operand exactly if and only if no frame was dropped |
| `BooleanOperators.NestedRunsAreExact` | runtime/python/supercov_runtime.py:1203-1224 | Of a nested run of any depth in which no frame was dropped: an operand is reported evaluated exactly when some evaluation evaluated it and short-circuited exactly when some did not |
| `BooleanOperators.ShallowRunsDropNothing` | runtime/python/supercov_runtime.py:1210-1211 | With at most 64 evaluations open no frame is dropped |
| `BooleanOperators.InterleavedRunsAreExact` | runtime/python/supercov_runtime.py:1203-1224 | All of that for any interleaving of contexts and groups, each nested in itself |
| `BooleanOperators.OneMoreMisreports` | runtime/python/supercov_runtime.py:63 | 64 is the most that depth alone allows: 65 open evaluations that all evaluate operand 1 still report it short-circuited |
| `BooleanOperators.RecordOn` | runtime/python/supercov_runtime.py:1209-1213 | The in-place stack update is the specified one: oldest frame out at 64, a new frame unless the operand comes after the top frame's last |
| `BooleanOperators.BoolOpProbes.OperandProbe` | runtime/python/supercov_runtime.py:1203-1214 | Advances exactly one (context, group) by an operand event and keeps stacks and hits in step with the model |
| `BooleanOperators.BoolOpProbes.BoolOpProbe` | runtime/python/supercov_runtime.py:1216-1224 | Advances exactly one (context, group) by a close; its hits stay exactly the reports of the closed frames |
| `KeyedRuns.KeysAreIndependent` | runtime/python/supercov_runtime.py:1205-1208 | After any run over all keys, a key's state is the one its own events alone lead to |
| `AstTransform.TransformedFunctionIsFaithful` | runtime/python/supercov_instrument.py:241-355 | The transformed function has the original's outcome and final state, effects in order included, and its stores, closed under the layout's implied bytes, are exactly entry, statements run, test outcomes, loops entered and loops run zero times |
| `ProgramProbes.ReaderSeesTheRun` | runtime/python/supercov_probes.py:337-353 | A function whose probes have its plan's numbers: once the reader added the implied bytes of the whole layout, all files together, a byte of the function is set exactly when the run showed what it stands for |
| `ProgramProbes.NumbersServeTheTransform` | runtime/python/supercov_probes.py:144-236 | The numbers of a plan meet what the transform asks of them, and the bytes its heads stand for are among those of `implied` |
| `ProgramProbes.PairsAreItems` | runtime/python/supercov_probes.py:337-353 | The layout's implied pairs are exactly a head with a function's entry, a loop's `entered` or an outcome of a one-condition decision |
| `ProgramProbes.ImpliedByTheFirst` | runtime/python/supercov_probes.py:335-353 | And the head is the number of the statement that the plan names first in the function, the loop's body or the branch, the last of that id in its file; where no statement has the id there is no pair |
| `ProgramProbes.SameItem` | runtime/python/supercov_probes.py:292-334 | No two of those, of any files, have the same byte |
| `AstTransform.BlockFaithful` | runtime/python/supercov_instrument.py:241-259 | The same for any statement list in any state, and the first statement's own probe always stores |
| `AstTransform.BranchFaithful` | runtime/python/supercov_instrument.py:261-296 | A branch says its outcome exactly once it runs, by its own probe or by its head's where that is left out |
| `AstTransform.MarkedBody` | runtime/python/supercov_instrument.py:298-355 | A loop body says `entered` and sets the loop's flag, itself or through its head's probe |
| `AstTransform.MarkReplacesHit` | runtime/python/supercov_instrument.py:320-340 | Merging the head's probe into the flag's store changes nothing but the flag |
| `AstTransform.CheckSaysZero` | runtime/python/supercov_instrument.py:298-355 | The check after a loop stores `zero` exactly when no item came and no `else` said so |
| `AstTransform.ForsAgree` | runtime/python/supercov_instrument.py:298-355 | Loops whose items and ends agree on every state agree, for every number of iterations |
| `AstTransform.LoopsAgree` | runtime/python/supercov_instrument.py:261-296 | The same for `while` |
| `AstTransform.Body` | runtime/python/supercov_instrument.py:241-259 | Rewriting the list in place gives the specified transform |
| `AstTransform.Branches` | runtime/python/supercov_instrument.py:261-296 | Outcome probes go exactly where a branch does not start with its head's probe |
| `AstTransform.LoopStatement` | runtime/python/supercov_instrument.py:298-355 | Reset before, mark in the body, check in the `else` or after the loop |
| `ConditionTrees.VisitsForward` | runtime/python/supercov_runtime.py:1160-1166 | An evaluation starts at its first condition and goes strictly forward, which is what the probe tells a nested evaluation by |
| `ConditionTrees.VectorEvaluates` | runtime/ruby/supercov_runtime.rb:1292-1305 | `evaluate_tree` on the vector an evaluation recorded is that evaluation's outcome |
| `ConditionTrees.ReachedIsVisible` | crates/supercov-engine/src/python_evidence.rs:672-695 | A part of a tree was evaluated exactly when one of its conditions was |
| `ConditionTrees.ReportsAreExact` | runtime/python/supercov_runtime.py:246-254 | An operand is reported evaluated exactly when evaluation got to it, and short-circuited exactly when it got to the operand before and not to it |
| `ConditionTrees.FirstOperandIsReached` | runtime/ruby/supercov_runtime.rb:1281-1289 | With two operands, short-circuited therefore means: the operator was evaluated and its right operand was not |
| `ConditionTrees.OnlySecondOperandIsSaid` | runtime/python/supercov_runtime.py:246-254 | What the docstring says, short-circuited when the operator was evaluated and the operand was not, holds of every evaluation if and only if the operand is the second; for every operator of every tree |
| `ConditionTrees.SkippedIsSaidOf` | runtime/python/supercov_runtime.py:246-254 | Of one evaluation it holds exactly when the operator was not evaluated, or the operand was, or the one before it |
| `ConditionTrees.EitherValue` | runtime/ruby/supercov_runtime.rb:1292-1305 | Every numbered tree can be made either value |
| `ConditionTrees.SkippedOperandIsNotReported` | runtime/python/supercov_runtime.py:246-254 | The instance with three operands: one past the one that decided gets no report at all |
| `DecisionVectors.Digits` | runtime/python/supercov_runtime.py:224-231 | The loop gives the mask's base-3 digits, lowest first |
| `DecisionVectors.DigitsUndoMask` | runtime/python/supercov_runtime.py:224-231 | Digits of a vector's mask are the vector, and the mask is below 3 to the width |
| `DecisionVectors.MaskUndoesDigits` | runtime/python/supercov_runtime.py:224-231 | And a mask below 3 to the width is the mask of its digits |
| `DecisionVectors.SetDigit` | runtime/python/supercov_runtime.py:1166 | Adding a digit's power of three sets that digit alone |
| `DecisionVectors.RegionRoundTrip` | crates/supercov-engine/src/python_evidence.rs:655-670 | The byte a vector and outcome are stored at is in the region and is read back as them |
| `DecisionVectors.RegionIsFull` | crates/supercov-engine/src/python_evidence.rs:655-670 | Every byte of the region is some vector's and outcome's |
| `PythonDecisions.EvaluationRecords` | runtime/python/supercov_runtime.py:1147-1188 | On any state one evaluation leaves the open ones as they were and logs its own vector after those of all that ran inside it |
| `PythonDecisions.NestedRunsAreExact` | runtime/python/supercov_runtime.py:1147-1188 | Every properly nested run, to any depth, logs exactly its evaluations' own vectors in the order they end, and leaves the idle state |
| `PythonDecisions.InterleavedRunsAreExact` | runtime/python/supercov_runtime.py:1147-1188 | The same for any interleaving of slots and decisions |
| `PythonDecisions.RecordedVectorIsOwn` | runtime/python/supercov_runtime.py:1182-1186 | A logged mask has digits at exactly the conditions its evaluation got to, evaluates to its outcome, and its byte is in the region and reads back as it |
| `PythonDecisions.StepKeepsBounded` | runtime/python/supercov_runtime.py:1147-1188 | Masks hold no digit past the last condition recorded, after every event |
| `PythonDecisions.ConditionProbe` | runtime/python/supercov_runtime.py:1147-1168 | The state object becomes the model's next state; the truth is passed through |
| `PythonDecisions.DecisionProbe` | runtime/python/supercov_runtime.py:1170-1188 | The state object becomes the model's next state; exactly the byte at start + 2*mask + outcome is set, or the vector is handed to the wide path |
| `RubyDecisions.EvaluationRecords` | runtime/ruby/supercov_runtime.rb:1233-1262 | With room for its depth an evaluation leaves the open frames as they were and closes with its own values |
| `RubyDecisions.InterleavedRunsAreExact` | runtime/ruby/supercov_runtime.rb:1233-1262 | For any interleaving, a nested run of any depth leaves no frame and hands `finish_decision` exactly its evaluations' values if and only if no frame was dropped; at most 64 deep none is |
| `RubyDecisions.DeepRunsAreSafe` | runtime/ruby/supercov_runtime.rb:1233-1280 | At any depth every decision closed has its own values or is declared inconsistent, and the limitation fires if and only if a frame was dropped |
| `RubyDecisions.OwnValuesAreRecorded` | runtime/ruby/supercov_runtime.rb:1268-1290 | Such values always evaluate to the outcome: the inconsistency limitation never fires, and the vector recorded is the evaluation's own |
| `RubyDecisions.LostStartIsInconsistent` | runtime/ruby/supercov_runtime.rb:1268-1277 | A frame that lost its first condition is never recorded, whatever else it holds |
| `RubyDecisions.LoneConditionIsRecorded` | runtime/ruby/supercov_runtime.rb:1255-1259 | A lone condition, read back from the outcome through its `not`, is always recorded |
| `RubyDecisions.Probes.ProbeCondition` | runtime/ruby/supercov_runtime.rb:1233-1246 | The hash of stacks advances by the model's step for one key, and the value is passed through |
| `RubyDecisions.Probes.ProbeDecision` | runtime/ruby/supercov_runtime.rb:1249-1266 | Likewise for a close |
| `SlotLifecycle.EvidenceIsExact` | runtime/python/supercov_runtime.py:1035-1132 | Over every interleaving of stores, resolution, copies, drops, boundary harvests, reclaim, reuse and closing: no record credits a context with a byte its probes did not store; until closing every stored byte is in a record, in the running harvest's runs or set in a slot of its context; free slots are clear; after closing a byte is in a record if and only if it was stored before its slot's last harvest came past it |
| `SlotLifecycle.SlotsAreAccountedFor` | runtime/python/supercov_runtime.py:1035-1132 | Until the runtime is closed every slot is in exactly one place: live, free, or being reclaimed; and the record of a reclaimed slot leaves it free and clear |
| `SlotLifecycle.ResolutionIsFinal` | runtime/python/supercov_runtime.py:332-348 | Once a reservation is resolved every reference to it, from whichever copied context, leads to the same slot or sink ever after |
| `SlotLifecycle.StoresGoHome` | runtime/python/supercov_runtime.py:318-348 | A store always reaches a slot of the probe's own phase, or a sink |
| `SlotLifecycle.OnlyTimelyStoresAreRecorded` | runtime/python/supercov_runtime.py:1107-1129 | Of every run that closes the runtime: a byte is in a record of a context if and only if some store of it for the context was made while the slot's last harvest had not begun or still searched at the byte or before it |
| `SlotLifecycle.StepOnlyPromised` | runtime/python/supercov_runtime.py:1035-1132 | Each atomic step keeps to what was stored in time: nothing else is in a record, in the runs or still to come |
| `SlotLifecycle.LateStoreIsLost` | runtime/python/supercov_runtime.py:1107-1129 | An instance: a byte stored between the last search of its slot's last harvest and that harvest's record is in no record once closed |
| `SlotLifecycle.StepInv` | runtime/python/supercov_runtime.py:1035-1132 | Each atomic step keeps the invariant all of this rests on |
| `SlotLifecycle.StoreInv` | runtime/python/supercov_runtime.py:341-345 | A probe's store, at any point of any harvest, keeps it |
| `SlotLifecycle.ResolveInv` | runtime/python/supercov_runtime.py:332-339 | So does the first probe's resolution of a reservation, from a fresh or a reused slot |
| `SlotLifecycle.ClearInv` | runtime/python/supercov_runtime.py:1119 | Clearing a run moves exactly its bytes to the runs, though probes went on storing since its end was found |
| `SlotLifecycle.FindNoneInv` | runtime/python/supercov_runtime.py:1114-1122 | Once nothing is found a reclaimed slot is clear for good, and others may be stored into again before the runs are written |
| `SlotLifecycle.WriteInv` | runtime/python/supercov_runtime.py:1123-1129 | Writing moves the runs to the records |
| `SlotLifecycle.CloseInv` | runtime/python/supercov_runtime.py:1392-1410 | Closing harvests every live slot before it stops |
| `Harvest.RunsAreExact` | runtime/python/supercov_runtime.py:1113-1122 | Runs are increasing, disjoint and maximal, and cover exactly the set bytes from the start on |
| `Harvest.ChunksAreExact` | runtime/python/supercov_runtime.py:1125-1129 | Chunks of an even length keep each start with its length; every record is readable, and together they decode to what the runs do |
| `Harvest.ChunksAreFull` | runtime/python/supercov_runtime.py:1125-1129 | The chunks are the runs cut at every multiple of the chunk's length: each full but the last, none empty, and together all of them |
| `Harvest.HarvestDecodes` | crates/supercov-engine/src/python_evidence.rs:820-838 | What the reader makes of a harvest's records is exactly the bytes set past the header; it refuses none of them |
| `Harvest.FindIn` | runtime/python/supercov_runtime.py:1106-1116 | The search for the next set or clear byte |
| `Harvest.TakeRun` | runtime/python/supercov_runtime.py:1115-1122 | One turn of the loop: the run is cleared in place, named, and nothing else changes |
| `Harvest.HarvestSlot` | runtime/python/supercov_runtime.py:1090-1129 | In place: the slot ends clear past the header and the records are the chunks of exactly the runs that were set; when closed nothing is recorded |
| `Harvest.WriteRecords` | runtime/python/supercov_runtime.py:1125-1129 | The slicing loop gives the specified chunks |
| `Transport.LittleRoundTrip` | runtime/python/supercov_runtime.py:615-617 | Little-endian fields wide enough for a number read back as it |
| `Transport.FrameIsRead` | crates/supercov-engine/src/python_evidence.rs:1019-1064 | A committed frame at an aligned place is read back as its payload, the next frame right behind it |
| `Transport.LaidIsRead` | crates/supercov-engine/src/python_evidence.rs:1005-1064 | Committed frames are read in order, up to the first uncommitted one |
| `Transport.QuietIsInvisible` | crates/supercov-engine/src/python_evidence.rs:1005-1064 | Any stores behind the cursor's commit byte or to the header's counters leave what is read unchanged |
| `Transport.BackEndsAgree` | runtime/python/supercov_runtime.py:614-630 | The positioned writes and the mapped stores leave identical bytes |
| `Transport.WriteKeepsReady` | runtime/python/supercov_runtime.py:593-636 | After every write the file is ready again, its record kept or counted as dropped, and all but the last store of a kept record are invisible to the reader |
| `Transport.KeptExactly` | runtime/python/supercov_runtime.py:593-602 | From any capacity of the file, a record is kept exactly when it is at most 4 MiB long and its frame, 16 bytes and the payload up to the next 8, ends within 512 MiB; the cursor moves by just that frame |
| `Transport.ThoseThatFitAreCommitted` | runtime/python/supercov_runtime.py:593-636 | Over any attempts the committed records are exactly those that fit so, in order |
| `Transport.CommittedComeFirst` | runtime/python/supercov_runtime.py:593-636 | And after any prefix of the byte stores they are the first of those |
| `Transport.MappedPast64KiB` | runtime/python/supercov_runtime.py:605-613 | Over any attempts a file that was not mapped from the start is mapped only once its records end past 64 KiB, and then it is unless mapping failed |
| `Transport.WriteIsAtomic` | runtime/python/supercov_runtime.py:593-631 | Killed after any store of a write, growth included: the record is there exactly when its last store is |
| `Transport.EveryPrefixIsReadable` | runtime/python/supercov_runtime.py:553-636 | For every sequence of writes, with growth, either back end and the switch between them, and every prefix of their byte stores: the frame reader returns exactly the records committed so far, in order |
| `KilledProcess.KilledProcessIsReadable` | crates/supercov-engine/src/python_evidence.rs:966-1064 | For every process, back end and sequence of writes, opening the file included, and every prefix of all its stores: the whole reader takes exactly the records committed so far if and only if the process id was stored, the capacity is not between its third and fourth byte while it crosses 16 MiB, and nothing was dropped, or the count of the dropped is being stored with only a carry in it |
| `KilledProcess.KilledProcessIsJudged` | crates/supercov-engine/src/python_evidence.rs:966-1064 | And what the reader says after any other store: header refused, or which count of dropped records |
| `KilledProcess.BegunIsJudged` | runtime/python/supercov_runtime.py:475-498 | Until the process id has a byte that is not 0 the header is refused, and from then on there are no records |
| `KilledProcess.TornCountIsZero` | runtime/python/supercov_runtime.py:633-636 | A half stored count reads as 0 exactly when the count before it is one below a power of 256 and only the carried bytes are stored |
| `KilledProcess.ForgottenCount` | runtime/python/supercov_runtime.py:633-636 | A process's first record and 256 dropped ones, and the process killed after the first byte of that count: the reader takes the file as if none had been dropped |
| `Transport.AttemptsAreAccountedFor` | runtime/python/supercov_runtime.py:593-636 | Attempted records are the committed ones plus the header's dropped count; the cursor stays aligned and within the capacity |
| `Transport.RestingFileIsParsed` | crates/supercov-engine/src/python_evidence.rs:966-1064 | Between writes the reader accepts the file exactly when nothing was dropped, with every committed record, and else reports the count |
| `Transport.FreshIsReady` | runtime/python/supercov_runtime.py:461-497 | The header a process writes first is one the reader accepts |
| `Transport.GrownIsCapacity` | runtime/python/supercov_runtime.py:556-561 | Growth only ever doubles from 1 MiB to 512 MiB |
| `Transport.GrownIsLeast` | runtime/python/supercov_runtime.py:553-568 | And it grows to the least of those capacities that is enough |
| `Transport.TornGrowth` | crates/supercov-engine/src/python_evidence.rs:984-997 | Killed between the bytes of the capacity field, the file is judged as before, except exactly after its third byte when the growth crosses 16 MiB |
| `Transport.TornCapacity` | runtime/python/supercov_runtime.py:567 | Such a field reads as the old or the new capacity, or in that one case as 0 |
| `RefusedWrite.LeftoverDecides` | runtime/python/supercov_runtime.py:274-280 | Over any bytes behind the cursor a positioned write reads back alone exactly when the byte where the frame after it would start is 0 or lies past the last header's room |
| `RefusedWrite.MappedLeftoverDecides` | runtime/python/supercov_runtime.py:622-631 | A write through the mapping reads back alone exactly when the reserved bytes it leaves are 0 as well, and the file is refused when they are not |
| `RefusedWrite.NextAfterRefused` | runtime/python/supercov_runtime.py:593-631 | After a positioned write that failed half way the next record, through either back end and with growth or without, reads back exactly when no byte of the first is left where its own frame ends; where one is, the file is refused |
| `RefusedWrite.LeftoverIsRefused` | runtime/python/supercov_runtime.py:274-280 | Such a run: after a process's first record, 57 of the 128 bytes of a frame with 112 bytes of text, and then a record of 40 bytes |
| `Transport.Transport.constructor` | runtime/python/supercov_runtime.py:461-497 | Opens over the specified fresh file and state |
| `Transport.Transport.WriteAt` | runtime/python/supercov_runtime.py:274-280 | However little the kernel takes at a time, the loop's stores come to the whole write |
| `Transport.Transport.GrowOutput` | runtime/python/supercov_runtime.py:553-568 | The doubling loop reaches the specified capacity, or changes nothing |
| `Transport.Transport.DropRecord` | runtime/python/supercov_runtime.py:633-636 | The count goes up by one in the object and in the header |
| `Transport.Transport.WritePayload` | runtime/python/supercov_runtime.py:593-631 | File and object after a call are the specified stores and the specified writer: too long, no room, growth, switching back end, and commit last; a record is taken if and only if it is at most 4 MiB and its frame ends within 512 MiB |
| `RequestLimits.PairsAreConserved` | crates/supercov-cli/src/assertions_command.rs:108-140 | As a multiset, the batch's statement-test pairs are those of the requests plus the refused ones |
| `RequestLimits.LimitsHold` | crates/supercov-cli/src/assertions_command.rs:119-131 | Every request out is within both token limits and asks something; each refused pair's own request breaks one |
| `RequestLimits.PartsAreNoLonger` | crates/supercov-cli/src/assertions_command.rs:127-130 | Splitting never makes a request ask more |
| `RequestLimits.AllOnlyHalved` | crates/supercov-cli/src/assertions_command.rs:125-132 | Every request out comes of one of the batch by halving requests that are over the limits and no others; one within them is asked as it is |
| `RequestLimits.OrderIsReversed` | crates/supercov-cli/src/assertions_command.rs:113-138 | Read from the last request to the first, what is asked are pairs of the batch in the batch's order |
| `RequestLimits.WithinLimits` | crates/supercov-cli/src/assertions_command.rs:108-140 | The stack loop ends and gives exactly the described requests, in their order, and refused pairs |
| `AssertionPlan.RequestIsSound` | crates/supercov-cli/src/assertions_command.rs:538-546 | A planned request asks 1 to 150 statements, each once, each undecided, open with the test, and in no earlier request |
| `AssertionPlan.PlanIsSound` | crates/supercov-cli/src/assertions_command.rs:507-552 | Each statement is in at most one request, tests are distinct, only askable pairs are in, and the batch is no longer than asked for |
| `AssertionPlan.PlanIsEmpty` | crates/supercov-cli/src/assertions_command.rs:508-537 | A plan is empty exactly when no undecided statement has an open test |
| `AssertionPlan.PlanCovers` | crates/supercov-cli/src/assertions_command.rs:523-551 | Nothing askable is left over but by the batch's length or a test's 150 questions |
| `PlanChoice.UndecidedInNumbers` | crates/supercov-cli/src/assertions_command.rs:433-450 | Undecided means: no answer of a half or more, and fewer than 5, 15 or 18 tests answered or refused, by the round, and not all that run the statement |
| `PlanChoice.MostAreAsked` | crates/supercov-cli/src/assertions_command.rs:520-537 | Each request's test has at least as many statements that it can be asked about and no earlier request took as every test not yet used, and is the least of those with as many |
| `PlanChoice.FirstAreAsked` | crates/supercov-cli/src/assertions_command.rs:538-546 | It asks about the first 150 of those statements, or all, in increasing order |
| `AssertionRun.Best` | crates/supercov-cli/src/assertions_command.rs:524-533 | The test with the most statements not taken, the smallest at a tie |
| `AssertionRun.Choose` | crates/supercov-cli/src/assertions_command.rs:520-551 | The greedy loop: each request is the best of the tests left, filled from its untaken statements in order |
| `AssertionRun.Pass.Plan` | crates/supercov-cli/src/assertions_command.rs:507-552 | Both loops together give such a batch from the pass's fields |
| `AssertionPass.SeededHolds` | crates/supercov-cli/src/assertions_command.rs:453-480 | Seeding only adds answers and never one for a test answered before |
| `AssertionPass.SeedingStops` | crates/supercov-cli/src/assertions_command.rs:470-476 | Of the saved answers taken up only the last can assert the statement |
| `SavedAnswers.TakenUpAreSaved` | crates/supercov-cli/src/assertions_command.rs:461-470 | Every answer taken up is to a test of the statement's order and has the value saved of that pair; they come in that order |
| `SavedAnswers.SavedAreTakenUp` | crates/supercov-cli/src/assertions_command.rs:461-476 | Every test of the order with a saved answer is answered, unless one taken up asserts the statement |
| `SavedAnswers.LastIsSaved` | crates/supercov-cli/src/assertions_command.rs:649-655 | A key that replies answered under holds the value of the last that did |
| `SavedAnswers.OthersAreKept` | crates/supercov-cli/src/assertions_command.rs:649-655 | Under every other key the cache is as it was |
| `SavedAnswers.NotAskedTwice` | crates/supercov-cli/src/assertions_command.rs:453-480 | What a round saved a later pass has an answer to once it took up its saved answers, or the statement is asserted |
| `AssertionPass.WidenedIsSound` | crates/supercov-cli/src/assertions_command.rs:483-504 | Widening keeps answers and refusals, and offers no pair that is answered or refused |
| `AssertionOffers.OpenAreTheChosen` | crates/supercov-cli/src/assertions_command.rs:483-504 | After widening, the tests open to a statement not asserted are exactly those of its 15, or of the last 3 chosen in view of what was asked, that are neither answered nor refused |
| `AssertionOffers.AskedTestsAre` | crates/supercov-cli/src/assertions_command.rs:494-501 | The choice of the last tests is told of exactly the tests answered, in order, and then those refused |
| `AssertionOffers.SpentIsAll` | crates/supercov-cli/src/assertions_command.rs:440-450 | A statement with as many tests answered or refused as its 15 has all of the 15 done, however its answers came about |
| `AssertionOffers.CourseEnds` | crates/supercov-cli/src/assertions_command.rs:598-664 | A pass that asked nothing but what it offered, and left no round before nothing was askable, ends with nothing unasked, as stated for `RunPass` |
| `AssertionPass.NewHolds` | crates/supercov-cli/src/assertions_command.rs:649-655 | A round gives a statement at most one answer, of a test it was asked of |
| `AssertionPass.EachIsKept` | crates/supercov-cli/src/assertions_command.rs:649-655 | Every answer is kept under its own statement and test |
| `AssertionPass.SettledWithinLimit` | crates/supercov-cli/src/assertions_command.rs:440-450 | A round spends at most one test on a statement, and only within its limit |
| `AssertionPass.FailuresAreTrailing` | crates/supercov-cli/src/assertions_command.rs:634-647 | The failure count is that of the replies that failed in a row, over all rounds |
| `AssertionRun.RoundProgressed` | crates/supercov-cli/src/assertions_command.rs:619-659 | A round leaves fewer unsettled pairs, or as many and more failures in a row |
| `AssertionRun.NotAskedAgain` | crates/supercov-cli/src/assertions_command.rs:599-627 | Whatever was known before a call: none of its pairs was answered or refused, and none of its statements asserted |
| `AssertionRun.Pass.constructor` | crates/supercov-cli/src/assertions_command.rs:707-715 | Starts sound and within every limit |
| `AssertionRun.Pass.Seed` | crates/supercov-cli/src/assertions_command.rs:453-480 | Walks each order as specified; with nothing taken up, nothing changes |
| `AssertionRun.Pass.Widen` | crates/supercov-cli/src/assertions_command.rs:483-504 | Sets the wider orders: in round 1 the statement's 15 tests, in round 2 those asked and the last 3, and for an asserted statement what it had |
| `AssertionRun.Pass.TakeReplies` | crates/supercov-cli/src/assertions_command.rs:629-658 | Records exactly the answers of the replies taken, and stops at the failure past the limit |
| `AssertionRun.Pass.RunPass` | crates/supercov-cli/src/assertions_command.rs:584-664 | Ends for every faithful source of replies; no pair is answered twice; every call is within the limits and asks only open pairs of undecided statements, each once; it stops exactly after 21 failures in a row; however it ends, if no saved answer was taken up no statement exceeds its round's limit, and a pass that keeps answers leaves every new one in the cache and nothing else that was not there. When it finishes, every test chosen last for a statement still undecided was answered or refused, and of a statement not asserted every one of the 15 was, if it was still undecided when the second round ended, or if the pass began with nothing but tests of the 15, they are no more than may be asked, and no test was both answered and refused |
| `LoadTime.FindLineStarts` | runtime/ruby/supercov_runtime.rb:131-135 | The scan finds exactly the starts of the lines |
| `LoadTime.StartsAreExact` | runtime/ruby/supercov_runtime.rb:131-135 | A line starts at 0 and after every newline, and nowhere else |
| `LoadTime.LineOf` | runtime/ruby/supercov_runtime.rb:209-221 | Bisection finds the line an offset is on |
| `LoadTime.IndexEdits` | runtime/ruby/supercov_runtime.rb:199-207 | The index holds each line's edits, in order, and no others |
| `LoadTime.Shift` | runtime/ruby/supercov_runtime.rb:226-268 | Each end's column moves by the bytes of its own line's edits that move it |
| `LoadTime.ApplyEdits` | runtime/ruby/supercov_runtime.rb:276-289 | The pieces joined are the specified splice |
| `LoadTime.LinesOfSpliced` | runtime/ruby/supercov_runtime.rb:276-289 | The output has as many lines, each starting where it did plus the bytes of the edits before it |
| `LoadTime.EndLands` | runtime/ruby/supercov_runtime.rb:226-268 | A shifted line and column, read through the output's own line starts, is the original offset plus the bytes of every edit before it and of those at it that move it |
| `LoadTime.SpanLands` | runtime/ruby/supercov_runtime.rb:226-268 | The same for both ends of a span of any kind |
| `LoadTime.WrappersStayTogether` | runtime/ruby/supercov_runtime.rb:226-268 | In the spliced output a span nested with what an opener and its closer wrap holds both insertions or neither: a node's both exactly when the wrapped part is inside it and not all of it, a list's both exactly when it is inside it |
| `LoadTime.WrappersBeside` | runtime/ruby/supercov_runtime.rb:226-268 | Of spans apart from the wrapped part all leave both insertions out but those that start right where it ends: they hold the closer |
| `LoadTime.StatementProbeStays` | runtime/ruby/supercov_runtime.rb:226-268 | A statement's probe is within a span's output exactly when the statement is within the span, and for a node not at its very start |
| `LoadTime.PointStays` | runtime/ruby/supercov_runtime.rb:235-238 | A point lands on the byte it pointed at |
| `LoadTime.LandsOnItsLine` | runtime/ruby/supercov_runtime.rb:276-289 | Every source byte keeps its line number |
| `LoadTime.SpanStaysOrdered` | runtime/ruby/supercov_runtime.rb:226-268 | A span that is not empty keeps its start before its end |
| `LoadTime.EmptySpanOrder` | runtime/ruby/supercov_runtime.rb:226-270 | An empty one keeps its order if and only if the edits at it that move its start, by kind, rank and scope, are no longer than those that move its end |
| `LoadTime.EmptySpanCanCross` | runtime/ruby/supercov_runtime.rb:234-248 | At every offset of every source there is an empty span that any one such insertion turns around |
| `LoadTime.ErasingRestores` | runtime/ruby/supercov_runtime.rb:276-289 | Cutting the insertions out gives the source back, whatever the bytes |
| `LoadTime.MergeHolds` | runtime/ruby/supercov_runtime.rb:189-194 | All planned and load-time edits, sorted by offset, load-time ones first at a tie, each group in its own order there |
| `LoadTime.MergeConserves` | runtime/ruby/supercov_runtime.rb:189-194 | The merged edits are the planned and the load-time ones, each as often as it was there |
| `LoadTime.MergedIsApplicable` | runtime/ruby/supercov_runtime.rb:189-194 | So what is merged can be spliced |
| `Observations.HitIsExact` | runtime/ruby/supercov_runtime.rb:1115-1126 | For every implication graph, cycles included, one observation ends and leaves exactly what was seen and what the id reaches, closed again |
| `Observations.HarvestIsExact` | runtime/ruby/supercov_runtime.rb:1130-1144 | The same for a batch that is marked before anything is followed |
| `Observations.HitStaysOnce` | runtime/ruby/supercov_runtime.rb:1121-1124 | Each new id is queued once, and each vector written once, through the whole recursion |
| `Observations.HarvestStaysOnce` | runtime/ruby/supercov_runtime.rb:1130-1144 | The same for a batch |
| `Observations.HitDecides` | runtime/ruby/supercov_runtime.rb:1194-1203 | The vectors written are exactly those of the decisions the new ids decide |
| `Observations.HarvestDecides` | runtime/ruby/supercov_runtime.rb:1194-1203 | The same for a batch |
| `ImpliedVectors.ImpliedVectorIsOwn` | runtime/ruby/supercov_runtime.rb:1194-1203 | An implied vector has its decision's outcome; its digits, read as 0 for none, 1 for false and 2 for true, evaluate to that outcome; and they spell exactly what the decision's own probe records |
| `ImpliedVectors.HitEvaluates` | runtime/ruby/supercov_runtime.rb:1194-1203 | So every vector an observation adds evaluates to its own outcome |
| `ImpliedVectors.HarvestEvaluates` | runtime/ruby/supercov_runtime.rb:1194-1203 | And every one a batch adds |
| `HitRecords.Observer.Hit` | runtime/ruby/supercov_runtime.rb:1115-1126 | The recursion through the fields ends, follows the specification, and touches no other context |
| `HitRecords.Observer.Imply` | runtime/ruby/supercov_runtime.rb:1194-1203 | Likewise for what one id implies |
| `HitRecords.Observer.Observe` | runtime/ruby/supercov_runtime.rb:1115-1126 | From a sound state: what the context has seen is exactly what it had and what the id reaches, each queued once |
| `HitRecords.Observer.HarvestLines` | runtime/ruby/supercov_runtime.rb:1130-1144 | The same for a phase's keys: what the context has seen is what it had and what is reached from the id of some key that has one |
| `HitRecords.Observer.Number` | runtime/ruby/supercov_runtime.rb:1177-1184 | Numbers are dense, one per id, and stand for exactly the ids given |
| `HitRecords.RecordsDecode` | crates/supercov-engine/src/ruby_evidence.rs:666-681 | An `ids` record and its `hits` record read back, against the table so far, as exactly the ids in order |
| `HitRecords.Observer.FlushHits` | runtime/ruby/supercov_runtime.rb:1166-1188 | Every context's queue is written in order; the file decodes to all that was flushed to it; the table only grows |
| `HitRecords.Observer.Flush` | runtime/ruby/supercov_runtime.rb:1166-1188 | And each sighting is still queued or written exactly once |
| `HitRecords.Observer.Fork` | runtime/ruby/supercov_runtime.rb:1474-1499 | A child's file names its ids afresh; what was seen stays seen |
| `SlotLayout.MeaningRoundTrip` | runtime/python/supercov_probes.py:279-334 | Every obligation, and every vector and outcome of a decision of at most 6 conditions, has a byte of the slot that the reader takes back to it |
| `SlotLayout.EveryByteMeans` | crates/supercov-engine/src/python_evidence.rs:849-863 | And every byte past the header is one of those and no other |
| `SlotLayout.NumbersAreBytes` | runtime/python/supercov_probes.py:217-219 | A file's number for an obligation is the slot byte of that obligation |
| `SlotLayout.NumbersAreApart` | runtime/python/supercov_probes.py:304-307 | Files' numbers do not collide |
| `SlotLayout.DecisionsAreApart` | runtime/python/supercov_probes.py:308-312 | Nor do their rebased decisions |
| `SlotLayout.DecisionsAreRebased` | runtime/python/supercov_probes.py:308-312 | And a rebased decision is the file's own |
| `SlotLayout.HeadIsStatement` | runtime/python/supercov_probes.py:144-164 | A head is a statement of its file with the id named |
| `SlotLayout.FindsRow` | crates/supercov-engine/src/python_evidence.rs:855-859 | The row found by bisection holds the byte, and is the only one to |
| `SlotLayout.TableIsBackToBack` | crates/supercov-engine/src/python_evidence.rs:714-747 | Regions follow the obligations back to back and fill the slot |
| `SlotLayout.LayoutIsAccepted` | crates/supercov-engine/src/python_evidence.rs:703-773 | The layout passes all of the reader's checks: regions fill the slot, heads are obligations, and nothing implied implies |
| `SlotLayout.OutcomeIsImplied` | runtime/python/supercov_probes.py:344-351 | An outcome's head is the byte of the statement the plan names, and what it implies reads as that one-condition vector and outcome |
| `SlotLayout.EachNumberIsItsOwn` | runtime/python/supercov_probes.py:144-183 | In every file the byte of a statement, of a function, of a loop's `entered`, the one after it for its `zero`, and of every other obligation is read back as an index at which the ids have just that id |
| `SlotLayout.NumberFile` | runtime/python/supercov_probes.py:123-213 | The constructor's loops give the specified numbers and heads |
| `SlotLayout.PlaceRegions` | runtime/python/supercov_probes.py:321-334 | The cursor loop gives the specified regions, and -1 for wide decisions |
| `SlotLayout.IndexPlan` | runtime/python/supercov_probes.py:292-357 | The whole index is as specified, what its heads imply is exactly the plan's, and the reader accepts it; at a loop's two numbers and at a function's its ids have `entered`, `zero` and the function's own; a decision has a region exactly when it has at most 6 conditions, after the ids and the regions before it |
| `FlatJson.JsonString` | runtime/python/supercov_runtime.py:98-120 | The fast path and the character loop spell every string the same |
| `FlatJson.BodyIsRead` | runtime/python/supercov_runtime.py:98-120 | By section 7 of RFC 8259 a string's spelling reads back as the string, surrogates that meet in it joined |
| `FlatJson.SpelledInAscii` | runtime/python/supercov_runtime.py:94-120 | Every character is spelled in printable ASCII, as short as `json` does: a letter's escape, itself, or lower-case escapes of its one or two units |
| `FlatJson.StringRoundTrip` | runtime/python/supercov_runtime.py:112-118 | It reads back as itself exactly when no high surrogate is followed by a low one, so for every string of Unicode scalar values |
| `FlatJson.FlatRoundTrip` | runtime/python/supercov_runtime.py:160-200 | The flat parser gives the dict back exactly when its strings are plain, and hands every other one on |
| `FlatTexts.TakenExactly` | runtime/python/supercov_runtime.py:160-200 | Of every text: the flat parser takes it exactly when it has no escape and is a braced list of keys and of strings or digits, with or without a minus, and gives each key its last value |
| `FlatJson.FlatObject` | runtime/python/supercov_runtime.py:160-200 | The index loop is the specified parser |

## Left out

- Python's `_exits`, `try`, `with`, `match`, comprehensions, lambdas, docstring and `from __future__` placement, and the `inserted` counter: the transform is modelled on the statements its insertion rules are about.
- Decisions wider than 6 conditions: they have no region, and their vectors are reported at once.
- Ruby's `probe_while` loop state: it is kept per context and loop, not per activation.
- `RubyDecisions.InterleavedRunsAreExact`: a decision of one condition has no condition probe in Ruby; it is `RubyDecisions.LoneConditionIsRecorded`'s subject only.
- Ruby's own `Transport` (version 1, another checksum): the frame protocol is the one proved for Python's.
- `SlotLifecycle.EvidenceIsExact`: slots are modelled on values, one atomic step at a time, because the claim is about every interleaving of threads; signal handlers re-entering a lock, forks, slots that cannot be created halfway and a transport that is full are not modelled.
- `Transport.AttemptsAreAccountedFor`: the dropped count is unbounded here; in the source it has 8 bytes, and `KilledProcess` is about processes that write fewer records than that.
- `KilledProcess.KilledProcessIsReadable`: a capacity or count is a positioned or mapped store of 8 bytes in order; an opening or a growth that fails halfway with an exception is not modelled. The reader's result leaves out which process id it read.
- `Transport.EveryPrefixIsReadable`: what payloads mean, slots beside the transport, and memory ordering below whole byte stores are not modelled. A mapped slice store is modelled as its bytes in order.
- `LoadTime.statement_probes` and reading `Coverage`'s line tables: only what is done with the edits is modelled.
- `ProgramProbes.ReaderSeesTheRun`: that a plan's heads are the first statements of the branches they are planned for, and that a program uses each number once, is what the plan promises.
- Ruby's seen-set locks: one thread at a time is modelled.
- `SlotLayout.IndexPlan`: the ids of tries and matches are one list in the order they are numbered; spans, digests and the operand plans of standalone expressions are not modelled, and decisions have at least one condition. The bytes a head implies are in the order they are found; the source sorts them. The files' records are values rather than objects.
- `AssertionRun.Pass.RunPass`: saving the cache can fail in the source and cannot here; the memo of pair keys, token totals and progress output are not modelled. A source of replies gives one reply per request and one answer per question; with fewer the loop in the source need not end. Two pairs may have one key: a saved value is the pair's own if keys tell pairs apart.
- How tests are ordered for a statement: any order without repeats.
- `FlatJson.FlatRoundTrip`: integers are unbounded; by default Python converts none of more than 4300 digits.
- `FlatJson.JsonString`: `_json_text` of nested lists, booleans and null, and the scanner that reads what the flat parser leaves.
- Runner adapters, import hooks, WSGI and Rack wrapping, process and signal handling, the launchers, reports and pricing.
