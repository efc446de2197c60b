# ETNA experiment drivers in Dafny

This project models the decision logic of two ETNA experiment drivers and proves properties about it.

**exp5.1.2 (Coq fuzzing experiment).** For each benchmark, the driver:
- lists its variants, properties and test-generation methods;
- drops the `base` variant;
- keeps only the `TypeBasedFuzzer` method;
- in Part 1 (BinarySearchTree, RedBlack), filters tasks through the per-variant allow-list of the benchmark's configuration file;
- encodes every remaining (variant, property, method) task as a result file name `bench,method,variant,test_property.json`;
- subtracts the names already in the results directory;
- decodes the variant field back out of what is left;
- for every pending variant, hands `run_trial` one trial configuration per allowed property and per fuel size 7, 100, 1000 and 10000. Each trial has 10 trials, a 60-second timeout and the output id `size:02,bench,method,variant,property`.

Part 2 (STLC) is the same without the allow-list.

**Exp0 (Haskell experiment).** The `skip` policy decides which (bench, variant, method, property) trials are skipped. Every task gets one trial with a five-second timeout.

Python's exceptions on these paths become values of `PyError`:
- `next()` on a benchmark without `base` raises `StopIteration`;
- `tasks[v]` for an unconfigured variant raises `KeyError(v)`;
- `set.remove(None)` when the allow-list filtered nothing raises `KeyError(None)`;
- `split(...)[i]` past the last field raises `IndexError`.

An operation that can raise returns `Result<_, PyError>`. Each step's contract says when that step fails and with which exception. For the composed parts, `Exp512.RunPart1` and `Exp512.RunPart2` state that StopIteration arises exactly when there is no base variant. `Exp512.Part1Outcome` and `Exp512.Part2Outcome` give the whole outcome when the benchmark and variant names hold no comma and no ".json".

The modules follow the program's structure:
- `Wrappers`: `Option`, `Result` and `PyError`.
- `Seqs`: `list.index`, lists without repetitions, and counting occurrences.
- `PyStrings`: `str.split`, `str.join`, `split(".json")[0]`, decimal printing and `{:02}` padding.
- `TaskKeys`: the reconciliation key and the output id.
- `Reconcile`: lines 32-43 and 72-81 (enumeration, the allow-list, the results-directory difference, decoding).
- `Dispatch`: the four nested loops of lines 45-62 and 83-100, as the ordered sequence of trial configurations.
- `Exp512`: both parts composed, for one benchmark.
- `Exp0`: `skip`, `trials` and `timeout`.

### Where the code and the evident intent differ (the model follows the code)

**Result names.** Reconciliation compares the results directory against keys of four comma fields: `bench,method,variant,test_property.json`. The trials are handed an output id of five comma fields: `size,bench,method,variant,property`.
- `TaskKeys.DispatchIdIsNeverTaskKey` proves that, for comma-free names, the id is never a key, with or without `.json`.
- `Exp512.Part1RerunRepeats` and `Exp512.Part2RerunRepeats` prove the consequence: adding every result name of a run to the directory and running again dispatches exactly the same trials.

Whether benchtool additionally writes a file under the key's name is not visible here. So this is recorded as a property of the driver, not as a bug.

**Granularity.** Reconciliation works per variant, not per (property, size). A variant with any unfinished task is re-run on every allowed property at every size, including the finished ones (`Exp512.Part1RunsWholeVariant`).

## Model

Some functions only build a value from the source's expressions; their rows are the lemmas about them:
- `TaskKeys.TaskKey` (the key of lines 40 and 79): `TaskKeys.TaskKeyFields`, `TaskKeys.TaskKeyInjective` and `TaskKeys.VariantFieldOfTaskKey`.
- `TaskKeys.DispatchId` (the output id of lines 53 and 91): `TaskKeys.DispatchIdFields` and `TaskKeys.DispatchIdIsNeverTaskKey`.
- `Dispatch.MakeTrial` (the loop body of lines 51-61): `Dispatch.SizeSweep` and `Dispatch.VariantLoop`.
- `PyStrings.Decimal` (`str(size)` at line 51): `PyStrings.ParseDecimalOfDecimal` and `Dispatch.OnlySmallestSizePadded`.
- `Exp0.Trials` and `Exp0.Timeout` (Exp0.py lines 32-36): `Exp0.TrialsAndTimeoutFixed`.

| member | source | states |
|---|---|---|
| Reconcile.RemoveFirst | experiments/coq-experiments/exp5.1/exp5.1.2.py:33 | `list.remove` of an element of the list cuts out its first occurrence and keeps the order of the rest (one occurrence fewer, nothing else changed) |
| Reconcile.RemoveBase | experiments/coq-experiments/exp5.1/exp5.1.2.py:33 | StopIteration exactly when no variant is named base; otherwise the first base is cut out and the other variants keep their order, so a benchmark with a single base has none left |
| Reconcile.KeepFuzzer | experiments/coq-experiments/exp5.1/exp5.1.2.py:35 | the kept methods are exactly the TypeBasedFuzzer entries, as many as the benchmark lists; the list is empty exactly when there is none |
| Reconcile.Product | experiments/coq-experiments/exp5.1/exp5.1.2.py:40 | the product holds exactly the (variant, property, method) triples drawn from the three lists |
| Reconcile.TagAll | experiments/coq-experiments/exp5.1/exp5.1.2.py:40 | mapping the allow-list lambda succeeds exactly when every task's variant is configured, and then yields, position by position, each admitted task's key or None; on failure some task's variant is unconfigured |
| Reconcile.TagAllProduct | experiments/coq-experiments/exp5.1/exp5.1.2.py:40 | over the product, the lookup fails exactly when there are properties and methods and some variant is unconfigured, and the KeyError names the first such variant in list order |
| Reconcile.CandidateKeys1 | experiments/coq-experiments/exp5.1/exp5.1.2.py:40-41 | Part 1's key set is a KeyError naming the first unconfigured variant; or KeyError(None) when the allow-list rejected no task (including an empty product); otherwise exactly the keys of the admitted tasks |
| Reconcile.CandidateKeys2 | experiments/coq-experiments/exp5.1/exp5.1.2.py:79 | every triple of the product has its key among Part 2's keys |
| Reconcile.Remaining | experiments/coq-experiments/exp5.1/exp5.1.2.py:42 | the remaining keys are keys, none is in the results listing, and every key is either remaining or listed |
| Reconcile.RemainingIdempotent | experiments/coq-experiments/exp5.1/exp5.1.2.py:42 | subtracting the same listing twice changes nothing |
| Reconcile.RemainingAntitone | experiments/coq-experiments/exp5.1/exp5.1.2.py:42 | a longer results listing never adds a remaining key |
| Reconcile.RemainingKeysOf | experiments/coq-experiments/exp5.1/exp5.1.2.py:40-42 | the remaining keys are exactly the keys of the tasks whose key is not listed |
| Reconcile.RemainingVariants | experiments/coq-experiments/exp5.1/exp5.1.2.py:43 | decoding fails with IndexError exactly when some remaining name has fewer than three comma fields before its first `.json`; otherwise the decoded variants are exactly the third fields of the remaining names |
| Reconcile.RemainingVariantsOfKeys | experiments/coq-experiments/exp5.1/exp5.1.2.py:43 | decoding the keys of tasks with clean names never fails and gives back exactly those tasks' variants |
| TaskKeys.VariantField | experiments/coq-experiments/exp5.1/exp5.1.2.py:43 | IndexError exactly when the part of the name before its first `.json` has fewer than three comma fields; otherwise the third of those fields, which holds no comma |
| TaskKeys.VariantFieldOfTaskKey | experiments/coq-experiments/exp5.1/exp5.1.2.py:40-43 | round trip: decoding the variant out of a key gives back the variant it was built from, when bench, method and variant hold no comma or ".json" |
| TaskKeys.TaskKeyFields | experiments/coq-experiments/exp5.1/exp5.1.2.py:40 | a key of comma-free names splits into exactly bench, method, variant and test_property.json |
| TaskKeys.TaskKeyInjective | experiments/coq-experiments/exp5.1/exp5.1.2.py:40 | distinct tasks of comma-free names have distinct keys |
| TaskKeys.CommaInVariantBreaksDecoding | experiments/coq-experiments/exp5.1/exp5.1.2.py:43 | a variant name holding a comma is decoded as only its part before the comma |
| TaskKeys.DispatchIdFields | experiments/coq-experiments/exp5.1/exp5.1.2.py:53 | the output id of comma-free names splits into exactly padded size, bench, method, variant and property, and its first field reads back as the size |
| TaskKeys.DispatchIdIsNeverTaskKey | experiments/coq-experiments/exp5.1/exp5.1.2.py:53 | an output id, with or without ".json", never equals a reconciliation key of comma-free names |
| PyStrings.Split | experiments/coq-experiments/exp5.1/exp5.1.2.py:43 | str.split on one character gives at least one piece, no piece holds the separator, and joining the pieces gives the string back |
| PyStrings.SplitJoin | experiments/coq-experiments/exp5.1/exp5.1.2.py:43 | splitting undoes joining pieces that hold no separator |
| PyStrings.SplitOnePiece | experiments/haskell-experiments/Exp0.py:27 | a string splits into more than one piece exactly when it holds the separator |
| PyStrings.BeforeFirst | experiments/coq-experiments/exp5.1/exp5.1.2.py:43 | `split(".json")[0]` is the longest prefix before the first occurrence of ".json", the whole string when there is none |
| PyStrings.Pad2 | experiments/coq-experiments/exp5.1/exp5.1.2.py:53 | `{size:02}` is at least two digits and exactly two below 10, reads back as the size, and is the plain decimal from 10 on |
| PyStrings.ParseDecimalOfDecimal | experiments/coq-experiments/exp5.1/exp5.1.2.py:51 | `str(size)` reads back as the size |
| Dispatch.SizeSweep | experiments/coq-experiments/exp5.1/exp5.1.2.py:50-62 | four trials of one task, one per fuel size in loop order, each with fuel, label, property and output id built from that size, each exactly once |
| Dispatch.MethodLoop | experiments/coq-experiments/exp5.1/exp5.1.2.py:49-62 | the trials are exactly those of the TypeBasedFuzzer entries at the four sizes, in runs of four; four trials per TypeBasedFuzzer entry |
| Dispatch.MethodLoopCount | experiments/coq-experiments/exp5.1/exp5.1.2.py:49-50 | the trial of a size is handed over once per TypeBasedFuzzer entry in the method list when the size is one of the four, and never otherwise |
| Dispatch.PropertyLoop | experiments/coq-experiments/exp5.1/exp5.1.2.py:47-62 | a trial is dispatched exactly for a property the allow-list admits for the variant (every property without one) |
| Dispatch.PropertyLoopCount | experiments/coq-experiments/exp5.1/exp5.1.2.py:47-62 | the property loop runs an admitted property's trial once per occurrence of the property times once per TypeBasedFuzzer entry, and any other trial never |
| Dispatch.PropertyLoopInOrder | experiments/coq-experiments/exp5.1/exp5.1.2.py:47 | with distinct property names, trials come property by property in list order |
| Dispatch.VariantLoop | experiments/coq-experiments/exp5.1/exp5.1.2.py:45-62 | a trial is dispatched exactly when its variant is configured and pending, its property is admitted, its method is TypeBasedFuzzer and its size is one of the four, with the loop body's fields; trials come in runs of four sizes of one task |
| Dispatch.VariantLoopCount | experiments/coq-experiments/exp5.1/exp5.1.2.py:45-62 | a scheduled trial runs (occurrences of its variant) x (occurrences of its property) x (TypeBasedFuzzer entries) times, any other trial never |
| Dispatch.VariantLoopOnce | experiments/coq-experiments/exp5.1/exp5.1.2.py:45-62 | with distinct variant and property names and one TypeBasedFuzzer entry, every scheduled trial runs exactly once |
| Dispatch.VariantLoopInOrder | experiments/coq-experiments/exp5.1/exp5.1.2.py:45-47 | with distinct variant and property names, trials come variant by variant in list order, and within a variant property by property |
| Dispatch.OnlySmallestSizePadded | experiments/coq-experiments/exp5.1/exp5.1.2.py:53 | of the four sizes only 7 is padded ("07"); the others print as plain decimals |
| Exp512.RunPart1 | experiments/coq-experiments/exp5.1/exp5.1.2.py:32-62 | Part 1 for one benchmark ends in StopIteration exactly when it has no base variant |
| Exp512.RunPart2 | experiments/coq-experiments/exp5.1/exp5.1.2.py:72-100 | Part 2 for one benchmark ends in StopIteration exactly when it has no base variant |
| Exp512.Part1Outcome | experiments/coq-experiments/exp5.1/exp5.1.2.py:32-62 | when the benchmark and variant names hold no comma and no ".json": Part 1 for one benchmark ends in StopIteration without base; KeyError naming the first unconfigured variant; KeyError(None) when the allow-list rejected nothing; otherwise it dispatches the variant loop over the variants with some allow-listed property whose key is not on disk |
| Exp512.Part2Outcome | experiments/coq-experiments/exp5.1/exp5.1.2.py:72-100 | when the benchmark and variant names hold no comma and no ".json": Part 2 ends in StopIteration without base, otherwise dispatches the variant loop over the variants with some property whose key is not on disk |
| Exp512.Part1NeverDispatchesBase | experiments/coq-experiments/exp5.1/exp5.1.2.py:33-45 | when the benchmark and variant names hold no comma and no ".json" and base occurs at most once, Part 1 never dispatches a trial of base |
| Exp512.Part2NeverDispatchesBase | experiments/coq-experiments/exp5.1/exp5.1.2.py:73-83 | when the benchmark and variant names hold no comma and no ".json" and base occurs at most once, Part 2 never dispatches a trial of base |
| Exp512.Part1RunsWholeVariant | experiments/coq-experiments/exp5.1/exp5.1.2.py:45-62 | when the benchmark and variant names hold no comma and no ".json", a pending variant of a successful run is run on every allow-listed property at every size, finished or not |
| Exp512.ScheduledResultNames | experiments/coq-experiments/exp5.1/exp5.1.2.py:53 | when the benchmark, variant and property names hold no comma, every output id the loops hand out has five comma fields, bare or with ".json" |
| Exp512.Part1IgnoresFiveFieldNames | experiments/coq-experiments/exp5.1/exp5.1.2.py:39-43 | when the benchmark and variant names hold no comma and no ".json" and the property names no comma, adding names of five comma fields to the results directory never changes Part 1's outcome |
| Exp512.Part2IgnoresFiveFieldNames | experiments/coq-experiments/exp5.1/exp5.1.2.py:78-81 | under the same name conditions, adding names of five comma fields to the results directory never changes Part 2's outcome |
| Exp512.Part1RerunRepeats | experiments/coq-experiments/exp5.1/exp5.1.2.py:39-62 | when the benchmark and variant names hold no comma and no ".json" and the property names no comma: after a successful Part 1 run, adding all its result names to the directory and running again dispatches the same trials |
| Exp512.Part2RerunRepeats | experiments/coq-experiments/exp5.1/exp5.1.2.py:78-100 | under the same name conditions, the same for Part 2 |
| Exp0.PropertyName | experiments/haskell-experiments/Exp0.py:27 | `property.split('_')[1]` fails with IndexError exactly when the property has no underscore, and is otherwise an underscore-free name |
| Exp0.PropertyNameOf | experiments/haskell-experiments/Exp0.py:27 | round trip: a property `prefix_Name`, optionally followed by `_more`, yields `Name` |
| Exp0.Skip | experiments/haskell-experiments/Exp0.py:16-30 | skip fails exactly for a BST/RBT non-base Correct trial whose property has no underscore or whose benchmark or variant is missing from the table (IndexError first, then the benchmark's KeyError, then the variant's); otherwise it answers true exactly when the trial is not one the experiment runs |
| Exp0.SizeAlwaysSkipped | experiments/haskell-experiments/Exp0.py:17-18 | the Size method is skipped whatever the other arguments |
| Exp0.BaseRunsEveryMethod | experiments/haskell-experiments/Exp0.py:20-21 | the base variant is skipped only under Size |
| Exp0.MutantRunsOnlyCorrect | experiments/haskell-experiments/Exp0.py:23-24 | a non-base variant is skipped under every method other than Correct |
| Exp0.UnfilteredMutantRuns | experiments/haskell-experiments/Exp0.py:26-30 | outside BST and RBT a non-base variant under Correct is never skipped |
| Exp0.SkipIgnoresTableElsewhere | experiments/haskell-experiments/Exp0.py:26-27 | the task table affects only BST/RBT non-base Correct trials |
| Exp0.GovernedMutantByName | experiments/haskell-experiments/Exp0.py:26-28 | a BST/RBT non-base Correct trial on `prefix_Name` is skipped exactly when the table does not list `Name` for its variant |
| Exp0.SkipAntitoneInTable | experiments/haskell-experiments/Exp0.py:27-28 | listing more names in the table never turns a run into a skip or an error |
| Exp0.TrialsAndTimeoutFixed | experiments/haskell-experiments/Exp0.py:32-36 | one trial and a timeout of the integer 5 (seconds), whatever the task |

## Left out

- benchtool is outside this model. This covers `all_benches`, `_preprocess`, `all_variants`, `all_properties`, `all_methods`, `apply_variant` and the trial runner. The variant, property and method lists are inputs, and the model's output is the ordered list of trial configurations handed to `run_trial`.
- The repeated calls to `all_variants`, `all_properties` and `all_methods` inside the loops (lines 45, 47, 49 and 83, 85, 87) are assumed to return fresh lists equal to what lines 32, 34 and 72, 74 read. Line 33 removes base in place from the list it read, so the variant loop's list still holds base; that is the `allVariants` that `Exp512.RunPart1` and `Exp512.RunPart2` pass to the loops.
- Variants, properties and methods are modelled by their names. A benchmark object is modelled by its name.
- The outer `for bench in benches` loops and the benchmark-name filters (lines 27 and 67) are not modelled: each part is modelled for one benchmark. The results listing is an input because it is re-read for every benchmark.
- File and environment I/O is not modelled: `json.load` of the configuration, `os.listdir` of the results directory, and `print`. Setting PICKNEXTFUEL is recorded as the `fuel` field of each trial.
- Part 3 (IFC) is commented out in the source, so it is not modelled.
- Module-level construction of the tool and the experiment, and `Experiment.run`, are not modelled (Exp0.py lines 9-11 and 39-40). They belong to benchtool; only the three overridden methods are modelled.
- The contents of the `Tasks` module used by Exp0 are not part of this model. The table is a parameter.
- The `float` annotation of `timeout` is not modelled. The method returns the integer literal 5, and `Exp0.Timeout` returns the natural number 5.
- Reconcile.RemoveFirst: Python's `list.remove` raises ValueError on an absent element. Line 33 cannot reach that case, because `next` returns an element of the same list, so the model returns the list unchanged there instead of modelling the exception.
- Reconcile.CandidateKeys2: states only that the product's keys are included. Equality with the keys of the product's tasks is how Exp512.Part2Outcome uses it.
- Exp512.Part1NeverDispatchesBase: requires that base occurs at most once among the variants. With two, `list.remove` leaves one and it can run.
- Exp512.Part2NeverDispatchesBase: same restriction as Part1NeverDispatchesBase.
- Exp512.RunPart1: its own contract states only the StopIteration case. The other outcomes are stated by Exp512.Part1Outcome, for names without a comma or ".json"; names that break the key format are not characterised beyond that (see TaskKeys.CommaInVariantBreaksDecoding).
- Exp512.RunPart2: same as RunPart1, with Exp512.Part2Outcome.
- Dispatch.PropertyLoopInOrder: the order is stated for distinct property names. With repeated names, the count is still given by Dispatch.PropertyLoopCount.
- Dispatch.VariantLoopInOrder: the order is stated for distinct variant and property names. With repeats, the counts are still given by Dispatch.VariantLoopCount.
