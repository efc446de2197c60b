/** exp5.1.2.py, Part 1 (BinarySearchTree and RedBlack, lines 25-62) and Part 2 (STLC,
    lines 65-100), for one benchmark each: enumeration, reconciliation and dispatch put
    together, with the exception that ends the run when there is one. */
module Exp512 {
  import opened Wrappers
  import opened PyStrings
  import opened TaskKeys
  import opened Reconcile
  import opened Dispatch

  /** Part 1 for one benchmark. The variant, property and method lists are what benchtool
      reports for it, `tasks` is the "tasks" entry of its configuration file and `finished`
      is the listing of the results directory. */
  function RunPart1(bench: string, allVariants: seq<string>, allProperties: seq<string>, allMethods: seq<string>,
                    tasks: map<string, seq<string>>, finished: set<string>): (r: Result<seq<Trial>, PyError>)
    ensures r == Failure(StopIteration) <==> Base !in allVariants
  {
    var variants :- RemoveBase(allVariants);
    var all :- CandidateKeys1(bench, variants, allProperties, KeepFuzzer(allMethods), tasks);
    var pending :- RemainingVariants(Remaining(all, finished));
    Success(VariantLoop(bench, Configured(tasks), pending, allVariants, allProperties, allMethods))
  }

  /** Part 2 for one benchmark: as Part 1, but with no allow-list. */
  function RunPart2(bench: string, allVariants: seq<string>, allProperties: seq<string>, allMethods: seq<string>,
                    finished: set<string>): (r: Result<seq<Trial>, PyError>)
    ensures r == Failure(StopIteration) <==> Base !in allVariants
  {
    var variants :- RemoveBase(allVariants);
    var all := CandidateKeys2(bench, variants, allProperties, KeepFuzzer(allMethods));
    var pending :- RemainingVariants(Remaining(all, finished));
    Success(VariantLoop(bench, Unrestricted, pending, allVariants, allProperties, allMethods))
  }

  /** Part 1's variants with work left: some allow-listed property whose key is not in the
      results directory. */
  function PendingPart1(bench: string, variants: seq<string>, properties: seq<string>,
                        tasks: map<string, seq<string>>, finished: set<string>): set<string>
  {
    set v, p | v in variants && p in properties && v in tasks && TestPrefix + p in tasks[v]
                 && TaskKey(bench, Fuzzer, v, p) !in finished :: v
  }

  /** Part 2's variants with work left: some property whose key is not in the results
      directory (none at all when the benchmark has no TypeBasedFuzzer). */
  function PendingPart2(bench: string, variants: seq<string>, properties: seq<string>, methods: seq<string>,
                        finished: set<string>): set<string>
  {
    set v, p | v in variants && p in properties && Fuzzer in methods && TaskKey(bench, Fuzzer, v, p) !in finished :: v
  }

  lemma FuzzerIsClean()
    ensures CleanName(Fuzzer)
  {
    NoDotIsClean(Fuzzer);
  }

  /** The names left after removing base are names of the benchmark. */
  lemma RemoveBaseKeepsNames(allVariants: seq<string>)
    requires Base in allVariants
    ensures forall v :: v in RemoveFirst(allVariants, Base) ==> v in allVariants
  {
    var variants := RemoveFirst(allVariants, Base);
    forall v | v in variants ensures v in allVariants {
      assert multiset(variants)[v] > 0;
    }
  }

  /** The variants of the unfinished admitted tasks are Part 1's pending variants. */
  lemma PendingPart1Variants(bench: string, variants: seq<string>, properties: seq<string>, allMethods: seq<string>,
                             tasks: map<string, seq<string>>, finished: set<string>)
    requires Fuzzer in allMethods
    ensures VariantsOf(Unfinished(bench, AllowedTasks(variants, properties, KeepFuzzer(allMethods), tasks), finished))
         == PendingPart1(bench, variants, properties, tasks, finished)
  {
    PendingPart1Sound(bench, variants, properties, allMethods, tasks, finished);
    PendingPart1Complete(bench, variants, properties, allMethods, tasks, finished);
  }

  /** Every variant of an unfinished admitted task is pending. */
  lemma PendingPart1Sound(bench: string, variants: seq<string>, properties: seq<string>, allMethods: seq<string>,
                          tasks: map<string, seq<string>>, finished: set<string>)
    ensures VariantsOf(Unfinished(bench, AllowedTasks(variants, properties, KeepFuzzer(allMethods), tasks), finished))
         <= PendingPart1(bench, variants, properties, tasks, finished)
  {
    var u := Unfinished(bench, AllowedTasks(variants, properties, KeepFuzzer(allMethods), tasks), finished);
    forall v | v in VariantsOf(u) ensures v in PendingPart1(bench, variants, properties, tasks, finished) {
      var t :| t in u && v == t.variant;
      assert t.methodName == Fuzzer;
    }
  }

  /** Every pending variant has an unfinished admitted task. */
  lemma PendingPart1Complete(bench: string, variants: seq<string>, properties: seq<string>, allMethods: seq<string>,
                             tasks: map<string, seq<string>>, finished: set<string>)
    requires Fuzzer in allMethods
    ensures PendingPart1(bench, variants, properties, tasks, finished)
         <= VariantsOf(Unfinished(bench, AllowedTasks(variants, properties, KeepFuzzer(allMethods), tasks), finished))
  {
    var u := Unfinished(bench, AllowedTasks(variants, properties, KeepFuzzer(allMethods), tasks), finished);
    forall v | v in PendingPart1(bench, variants, properties, tasks, finished) ensures v in VariantsOf(u) {
      var p :| v in variants && p in properties && v in tasks && TestPrefix + p in tasks[v]
               && TaskKey(bench, Fuzzer, v, p) !in finished;
      assert Task(v, p, Fuzzer) in u;
    }
  }

  /** With clean names, decoding the remaining allow-listed keys gives the pending variants. */
  lemma PendingPart1Decoded(bench: string, variants: seq<string>, properties: seq<string>, allMethods: seq<string>,
                            tasks: map<string, seq<string>>, finished: set<string>)
    requires CleanName(bench)
    requires forall v :: v in variants ==> CleanName(v)
    requires Fuzzer in allMethods
    ensures RemainingVariants(Remaining(KeysOf(bench, AllowedTasks(variants, properties, KeepFuzzer(allMethods), tasks)), finished))
         == Success(PendingPart1(bench, variants, properties, tasks, finished))
  {
    var allowed := AllowedTasks(variants, properties, KeepFuzzer(allMethods), tasks);
    RemainingKeysOf(bench, allowed, finished);
    FuzzerIsClean();
    RemainingVariantsOfKeys(bench, Unfinished(bench, allowed, finished));
    PendingPart1Variants(bench, variants, properties, allMethods, tasks, finished);
  }

  /** Part 1 on every input whose names are clean: StopIteration without a base variant;
      KeyError for the first unconfigured variant once anything is looked up; KeyError(None)
      when the allow-list filters nothing out; otherwise the dispatch loops run over exactly
      the variants with an allow-listed task whose key is not yet on disk. */
  lemma Part1Outcome(bench: string, allVariants: seq<string>, allProperties: seq<string>, allMethods: seq<string>,
                     tasks: map<string, seq<string>>, finished: set<string>)
    requires CleanName(bench)
    requires forall v :: v in allVariants ==> CleanName(v)
    ensures RunPart1(bench, allVariants, allProperties, allMethods, tasks, finished)
         == var variants := RemoveFirst(allVariants, Base);
            if Base !in allVariants then Failure(StopIteration)
            else if |allProperties| > 0 && Fuzzer in allMethods && FirstUnconfigured(variants, tasks).Some?
            then Failure(KeyError(FirstUnconfigured(variants, tasks)))
            else if !SomeFiltered(variants, allProperties, KeepFuzzer(allMethods), tasks)
            then Failure(KeyError(None))
            else Success(VariantLoop(bench, Configured(tasks), PendingPart1(bench, variants, allProperties, tasks, finished),
                                     allVariants, allProperties, allMethods))
  {
    if Base in allVariants {
      var variants := RemoveFirst(allVariants, Base);
      var methods := KeepFuzzer(allMethods);
      if SomeFiltered(variants, allProperties, methods, tasks) {
        RemoveBaseKeepsNames(allVariants);
        PendingPart1Decoded(bench, variants, allProperties, allMethods, tasks, finished);
      }
    }
  }

  /** The variants of the unfinished tasks are Part 2's pending variants. */
  lemma PendingPart2Variants(bench: string, variants: seq<string>, properties: seq<string>, allMethods: seq<string>,
                             finished: set<string>)
    ensures VariantsOf(Unfinished(bench, ProductTasks(variants, properties, KeepFuzzer(allMethods)), finished))
         == PendingPart2(bench, variants, properties, allMethods, finished)
  {
    var u := Unfinished(bench, ProductTasks(variants, properties, KeepFuzzer(allMethods)), finished);
    var want := PendingPart2(bench, variants, properties, allMethods, finished);
    forall v | v in VariantsOf(u) ensures v in want {
      var t :| t in u && v == t.variant;
      assert t.methodName == Fuzzer;
    }
    forall v | v in want ensures v in VariantsOf(u) {
      var p :| v in variants && p in properties && Fuzzer in allMethods && TaskKey(bench, Fuzzer, v, p) !in finished;
      assert Task(v, p, Fuzzer) in u;
    }
  }

  /** With clean names, decoding the remaining keys gives Part 2's pending variants. */
  lemma PendingPart2Decoded(bench: string, variants: seq<string>, properties: seq<string>, allMethods: seq<string>,
                            finished: set<string>)
    requires CleanName(bench)
    requires forall v :: v in variants ==> CleanName(v)
    ensures RemainingVariants(Remaining(CandidateKeys2(bench, variants, properties, KeepFuzzer(allMethods)), finished))
         == Success(PendingPart2(bench, variants, properties, allMethods, finished))
  {
    var all := ProductTasks(variants, properties, KeepFuzzer(allMethods));
    assert CandidateKeys2(bench, variants, properties, KeepFuzzer(allMethods)) == KeysOf(bench, all);
    RemainingKeysOf(bench, all, finished);
    FuzzerIsClean();
    RemainingVariantsOfKeys(bench, Unfinished(bench, all, finished));
    PendingPart2Variants(bench, variants, properties, allMethods, finished);
  }

  /** Part 2 on every input whose names are clean: StopIteration without a base variant,
      otherwise the dispatch loops run over exactly the variants with a task whose key is
      not yet on disk. No KeyError can arise: there is no configuration lookup and no
      `remove(None)`. */
  lemma Part2Outcome(bench: string, allVariants: seq<string>, allProperties: seq<string>, allMethods: seq<string>,
                     finished: set<string>)
    requires CleanName(bench)
    requires forall v :: v in allVariants ==> CleanName(v)
    ensures RunPart2(bench, allVariants, allProperties, allMethods, finished)
         == if Base !in allVariants then Failure(StopIteration)
            else Success(VariantLoop(bench, Unrestricted,
                                     PendingPart2(bench, RemoveFirst(allVariants, Base), allProperties, allMethods, finished),
                                     allVariants, allProperties, allMethods))
  {
    if Base in allVariants {
      RemoveBaseKeepsNames(allVariants);
      PendingPart2Decoded(bench, RemoveFirst(allVariants, Base), allProperties, allMethods, finished);
    }
  }

  /** Part 1 never runs a trial of the base variant when the benchmark has one base:
      base is removed before the product, so no key decodes to it. */
  lemma Part1NeverDispatchesBase(bench: string, allVariants: seq<string>, allProperties: seq<string>,
                                 allMethods: seq<string>, tasks: map<string, seq<string>>, finished: set<string>)
    requires CleanName(bench)
    requires forall v :: v in allVariants ==> CleanName(v)
    requires multiset(allVariants)[Base] <= 1
    ensures RunPart1(bench, allVariants, allProperties, allMethods, tasks, finished).Success?
        ==> forall t :: t in RunPart1(bench, allVariants, allProperties, allMethods, tasks, finished).value
                        ==> t.variant != Base
  {
    Part1Outcome(bench, allVariants, allProperties, allMethods, tasks, finished);
  }

  /** Part 2 never runs a trial of the base variant when the benchmark has one base. */
  lemma Part2NeverDispatchesBase(bench: string, allVariants: seq<string>, allProperties: seq<string>,
                                 allMethods: seq<string>, finished: set<string>)
    requires CleanName(bench)
    requires forall v :: v in allVariants ==> CleanName(v)
    requires multiset(allVariants)[Base] <= 1
    ensures RunPart2(bench, allVariants, allProperties, allMethods, finished).Success?
        ==> forall t :: t in RunPart2(bench, allVariants, allProperties, allMethods, finished).value
                        ==> t.variant != Base
  {
    Part2Outcome(bench, allVariants, allProperties, allMethods, finished);
  }

  /** For a pending variant, every allow-listed property is run at every fuel size, whether
      or not that property's own key is already on disk: reconciliation selects variants,
      not tasks. */
  lemma Part1RunsWholeVariant(bench: string, allVariants: seq<string>, allProperties: seq<string>,
                              allMethods: seq<string>, tasks: map<string, seq<string>>, finished: set<string>,
                              v: string, p: string, size: nat)
    requires CleanName(bench)
    requires forall v :: v in allVariants ==> CleanName(v)
    requires RunPart1(bench, allVariants, allProperties, allMethods, tasks, finished).Success?
    requires v in PendingPart1(bench, RemoveFirst(allVariants, Base), allProperties, tasks, finished)
    requires p in allProperties && TestPrefix + p in tasks[v] && size in FuelSizes
    ensures MakeTrial(bench, v, p, Fuzzer, size) in RunPart1(bench, allVariants, allProperties, allMethods, tasks, finished).value
  {
    Part1Outcome(bench, allVariants, allProperties, allMethods, tasks, finished);
    RemoveBaseKeepsNames(allVariants);
  }

  /** The names under which the dispatched trials' results can appear: the output id,
      bare or with ".json". */
  function ResultNames(trials: seq<Trial>): set<string> {
    (set t | t in trials :: t.config.file) + (set t | t in trials :: t.config.file + JsonSuffix)
  }

  /** The output id of a Part 1 or Part 2 trial has five comma fields, bare or with ".json". */
  lemma ResultNameFields(bench: string, variant: string, property: string, size: nat)
    requires ',' !in bench && ',' !in variant && ',' !in property
    ensures var file := MakeTrial(bench, variant, property, Fuzzer, size).config.file;
            |Split(file, ',')| == 5 && |Split(file + JsonSuffix, ',')| == 5
  {
    FuzzerIsClean();
    LiteralsCommaFree();
    DispatchIdFields(size, bench, Fuzzer, variant, property);
    assert ',' !in property + JsonSuffix;
    DispatchIdFields(size, bench, Fuzzer, variant, property + JsonSuffix);
    DispatchIdSuffix(size, bench, Fuzzer, variant, property, JsonSuffix);
  }

  /** A name with five comma fields is never the key of a Part 1 or Part 2 task. */
  lemma FiveFieldsNeverPending(bench: string, v: string, p: string, w: string)
    requires ',' !in bench && ',' !in v && ',' !in p
    requires |Split(w, ',')| == 5
    ensures w != TaskKey(bench, Fuzzer, v, p)
  {
    FuzzerIsClean();
    TaskKeyFields(bench, Fuzzer, v, p);
  }

  /** Adding names with five comma fields to the results directory changes nothing in
      Part 1: such a name is never a reconciliation key. */
  lemma Part1IgnoresFiveFieldNames(bench: string, allVariants: seq<string>, allProperties: seq<string>,
                                   allMethods: seq<string>, tasks: map<string, seq<string>>, finished: set<string>,
                                   written: set<string>)
    requires CleanName(bench)
    requires forall v :: v in allVariants ==> CleanName(v)
    requires forall p :: p in allProperties ==> ',' !in p
    requires forall w :: w in written ==> |Split(w, ',')| == 5
    ensures RunPart1(bench, allVariants, allProperties, allMethods, tasks, finished + written)
         == RunPart1(bench, allVariants, allProperties, allMethods, tasks, finished)
  {
    Part1Outcome(bench, allVariants, allProperties, allMethods, tasks, finished);
    Part1Outcome(bench, allVariants, allProperties, allMethods, tasks, finished + written);
    if Base in allVariants {
      var variants := RemoveFirst(allVariants, Base);
      RemoveBaseKeepsNames(allVariants);
      forall v, p | v in variants && p in allProperties
        ensures TaskKey(bench, Fuzzer, v, p) !in written
      {
        forall w | w in written ensures w != TaskKey(bench, Fuzzer, v, p) {
          FiveFieldsNeverPending(bench, v, p, w);
        }
      }
      assert PendingPart1(bench, variants, allProperties, tasks, finished + written)
          == PendingPart1(bench, variants, allProperties, tasks, finished);
    }
  }

  /** Every result name of a trial the variant loop schedules has five comma fields. */
  lemma ScheduledResultNames(bench: string, allow: AllowList, pending: set<string>, variants: seq<string>,
                             properties: seq<string>, methods: seq<string>)
    requires ',' !in bench
    requires forall v :: v in variants ==> ',' !in v
    requires forall p :: p in properties ==> ',' !in p
    ensures forall w :: w in ResultNames(VariantLoop(bench, allow, pending, variants, properties, methods))
              ==> |Split(w, ',')| == 5
  {
    var trials := VariantLoop(bench, allow, pending, variants, properties, methods);
    forall w | w in ResultNames(trials) ensures |Split(w, ',')| == 5 {
      var t :| t in trials && (w == t.config.file || w == t.config.file + JsonSuffix);
      assert Scheduled(bench, allow, pending, variants, properties, methods, t);
      ResultNameFields(bench, t.variant, t.property, t.size);
    }
  }

  /** Recording the results of a Part 1 run and running Part 1 again dispatches the same
      trials again: the names the trials write are not reconciliation keys. */
  lemma Part1RerunRepeats(bench: string, allVariants: seq<string>, allProperties: seq<string>,
                          allMethods: seq<string>, tasks: map<string, seq<string>>, finished: set<string>)
    requires CleanName(bench)
    requires forall v :: v in allVariants ==> CleanName(v)
    requires forall p :: p in allProperties ==> ',' !in p
    requires RunPart1(bench, allVariants, allProperties, allMethods, tasks, finished).Success?
    ensures var trials := RunPart1(bench, allVariants, allProperties, allMethods, tasks, finished).value;
              RunPart1(bench, allVariants, allProperties, allMethods, tasks, finished + ResultNames(trials)) == Success(trials)
  {
    var variants := RemoveFirst(allVariants, Base);
    Part1Outcome(bench, allVariants, allProperties, allMethods, tasks, finished);
    ScheduledResultNames(bench, Configured(tasks), PendingPart1(bench, variants, allProperties, tasks, finished),
                         allVariants, allProperties, allMethods);
    var trials := RunPart1(bench, allVariants, allProperties, allMethods, tasks, finished).value;
    Part1IgnoresFiveFieldNames(bench, allVariants, allProperties, allMethods, tasks, finished, ResultNames(trials));
  }

  /** Adding names with five comma fields to the results directory changes nothing in Part 2. */
  lemma Part2IgnoresFiveFieldNames(bench: string, allVariants: seq<string>, allProperties: seq<string>,
                                   allMethods: seq<string>, finished: set<string>, written: set<string>)
    requires CleanName(bench)
    requires forall v :: v in allVariants ==> CleanName(v)
    requires forall p :: p in allProperties ==> ',' !in p
    requires forall w :: w in written ==> |Split(w, ',')| == 5
    ensures RunPart2(bench, allVariants, allProperties, allMethods, finished + written)
         == RunPart2(bench, allVariants, allProperties, allMethods, finished)
  {
    Part2Outcome(bench, allVariants, allProperties, allMethods, finished);
    Part2Outcome(bench, allVariants, allProperties, allMethods, finished + written);
    if Base in allVariants {
      var variants := RemoveFirst(allVariants, Base);
      RemoveBaseKeepsNames(allVariants);
      forall v, p | v in variants && p in allProperties
        ensures TaskKey(bench, Fuzzer, v, p) !in written
      {
        forall w | w in written ensures w != TaskKey(bench, Fuzzer, v, p) {
          FiveFieldsNeverPending(bench, v, p, w);
        }
      }
      assert PendingPart2(bench, variants, allProperties, allMethods, finished + written)
          == PendingPart2(bench, variants, allProperties, allMethods, finished);
    }
  }

  /** Part 2 rerun after recording its results dispatches the same trials again. */
  lemma Part2RerunRepeats(bench: string, allVariants: seq<string>, allProperties: seq<string>,
                          allMethods: seq<string>, finished: set<string>)
    requires CleanName(bench)
    requires forall v :: v in allVariants ==> CleanName(v)
    requires forall p :: p in allProperties ==> ',' !in p
    requires RunPart2(bench, allVariants, allProperties, allMethods, finished).Success?
    ensures var trials := RunPart2(bench, allVariants, allProperties, allMethods, finished).value;
              RunPart2(bench, allVariants, allProperties, allMethods, finished + ResultNames(trials)) == Success(trials)
  {
    var variants := RemoveFirst(allVariants, Base);
    Part2Outcome(bench, allVariants, allProperties, allMethods, finished);
    ScheduledResultNames(bench, Unrestricted, PendingPart2(bench, variants, allProperties, allMethods, finished),
                         allVariants, allProperties, allMethods);
    var trials := RunPart2(bench, allVariants, allProperties, allMethods, finished).value;
    Part2IgnoresFiveFieldNames(bench, allVariants, allProperties, allMethods, finished, ResultNames(trials));
  }
}
