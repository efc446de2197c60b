/** The Haskell experiment driver: which (variant, method, property) trials it skips,
    and its fixed trial count and timeout. */
module Exp0 {
  import opened Wrappers
  import opened PyStrings

  /** The table `tasks[bench][variant]` that `skip` consults: benchmark -> variant -> a list
      of property names. Its contents come from a module outside this model. */
  type TaskTable = map<string, map<string, seq<string>>>

  /** The variant name `skip` compares against: "base". */
  const BaseVariant := "base"
  const SizeMethod := "Size"
  const CorrectMethod := "Correct"
  /** The benchmarks whose mutants are checked only against their listed properties. */
  const FilteredBenches: seq<string> := ["BST", "RBT"]
  const NameSeparator := '_'

  /** `property.split('_')[1]`: the property's name after its first underscore-separated
      field; an IndexError when the property holds no underscore. */
  function PropertyName(property: string): (r: Result<string, PyError>)
    ensures r.Failure? <==> NameSeparator !in property
    ensures r.Failure? ==> r.error == IndexError
    ensures r.Success? ==> NameSeparator !in r.value
  {
    SplitOnePiece(property, NameSeparator);
    var parts := Split(property, NameSeparator);
    if |parts| < 2 then Failure(IndexError) else Success(parts[1])
  }

  /** The usual shape `prefix_Name` or `prefix_Name_more`: the name decodes back. */
  lemma {:induction false} PropertyNameOf(prefix: string, name: string, tail: string)
    requires NameSeparator !in prefix && NameSeparator !in name
    requires |tail| == 0 || tail[0] == NameSeparator
    ensures PropertyName(prefix + [NameSeparator] + name + tail) == Success(name)
  {
    SplitCons(prefix, NameSeparator, name + tail);
    assert prefix + [NameSeparator] + name + tail == prefix + [NameSeparator] + (name + tail);
    if |tail| == 0 {
      assert name + tail == name;
      SplitNoSep(name, NameSeparator);
    } else {
      assert name + tail == name + [NameSeparator] + tail[1..];
      SplitCons(name, NameSeparator, tail[1..]);
    }
  }

  /** `MyExperiment.skip`, evaluated in the source's order; lookups in the allow-list
      raise KeyError, and they happen only after the property name is taken. */
  function Skip(tasks: TaskTable, bench: string, variant: string, methodName: string, property: string)
    : (r: Result<bool, PyError>)
    ensures r.Failure? <==> SkipFails(tasks, bench, variant, methodName, property)
    ensures r.Failure? ==> r.error == SkipError(tasks, bench, variant, property)
    ensures r.Success? ==> (r.value <==> !Runs(tasks, bench, variant, methodName, property))
  {
    if methodName == SizeMethod then Success(true)
    else if variant == BaseVariant then Success(false)
    else if methodName != CorrectMethod then Success(true)
    else if bench in FilteredBenches then
      var name :- PropertyName(property);
      if bench !in tasks then Failure(KeyError(Some(bench)))
      else if variant !in tasks[bench] then Failure(KeyError(Some(variant)))
      else Success(name !in tasks[bench][variant])
    else Success(false)
  }

  /** The mutants the allow-list governs: non-base variants of BST and RBT under the
      Correct method. */
  predicate Governed(bench: string, variant: string, methodName: string) {
    methodName == CorrectMethod && variant != BaseVariant && bench in FilteredBenches
  }

  /** The trials the experiment keeps: never the Size method; every other method on the
      base variant; on a mutant only Correct, and for BST and RBT only on a property whose
      name the allow-list lists for that variant. */
  predicate Runs(tasks: TaskTable, bench: string, variant: string, methodName: string, property: string) {
    && methodName != SizeMethod
    && (variant == BaseVariant || methodName == CorrectMethod)
    && (Governed(bench, variant, methodName) && !SkipFails(tasks, bench, variant, methodName, property) ==>
          PropertyName(property).value in tasks[bench][variant])
  }

  /** When the decision cannot be made: a governed mutant whose property has no name
      field, or whose benchmark or variant is missing from the allow-list. */
  predicate SkipFails(tasks: TaskTable, bench: string, variant: string, methodName: string, property: string) {
    Governed(bench, variant, methodName)
    && (NameSeparator !in property || bench !in tasks || variant !in tasks[bench])
  }

  /** The exception raised first: the name field, then the benchmark, then the variant. */
  function SkipError(tasks: TaskTable, bench: string, variant: string, property: string): PyError {
    if NameSeparator !in property then IndexError
    else if bench !in tasks then KeyError(Some(bench))
    else KeyError(Some(variant))
  }

  /** `MyExperiment.trials`: one trial for every task, whatever its benchmark and method. */
  function Trials(workload: string, methodName: string): nat {
    1
  }

  /** `MyExperiment.timeout`: five seconds per trial, returned as the integer 5 although the
      method is annotated as returning a float. */
  function Timeout(): nat {
    5
  }

  /** Size is skipped whatever the benchmark, variant and property. */
  lemma SizeAlwaysSkipped(tasks: TaskTable, bench: string, variant: string, property: string)
    ensures Skip(tasks, bench, variant, SizeMethod, property) == Success(true)
  {
  }

  /** The base variant runs under every method but Size, and is never looked up. */
  lemma BaseRunsEveryMethod(tasks: TaskTable, bench: string, methodName: string, property: string)
    ensures Skip(tasks, bench, BaseVariant, methodName, property) == Success(methodName == SizeMethod)
  {
  }

  /** A mutant runs under no method but Correct. */
  lemma MutantRunsOnlyCorrect(tasks: TaskTable, bench: string, variant: string, methodName: string, property: string)
    requires variant != BaseVariant && methodName != CorrectMethod
    ensures Skip(tasks, bench, variant, methodName, property) == Success(true)
  {
  }

  /** Outside BST and RBT every mutant runs under Correct, on every property. */
  lemma UnfilteredMutantRuns(tasks: TaskTable, bench: string, variant: string, property: string)
    requires variant != BaseVariant && bench !in FilteredBenches
    ensures Skip(tasks, bench, variant, CorrectMethod, property) == Success(false)
  {
  }

  /** The allow-list matters only for the mutants it governs: elsewhere two tables give
      the same decision. */
  lemma SkipIgnoresTableElsewhere(tasks: TaskTable, other: TaskTable, bench: string, variant: string,
                                  methodName: string, property: string)
    requires !Governed(bench, variant, methodName)
    ensures Skip(tasks, bench, variant, methodName, property) == Skip(other, bench, variant, methodName, property)
  {
  }

  /** A BST or RBT mutant under Correct, on a property named `prefix_Name`, runs exactly
      when the allow-list lists `Name` for that variant. */
  lemma GovernedMutantByName(tasks: TaskTable, bench: string, variant: string, prefix: string, name: string)
    requires variant != BaseVariant && bench in FilteredBenches
    requires NameSeparator !in prefix && NameSeparator !in name
    requires bench in tasks && variant in tasks[bench]
    ensures Skip(tasks, bench, variant, CorrectMethod, prefix + [NameSeparator] + name)
         == Success(name !in tasks[bench][variant])
  {
    PropertyNameOf(prefix, name, []);
    assert prefix + [NameSeparator] + name + [] == prefix + [NameSeparator] + name;
  }

  /** Listing more property names for a variant never turns a run into a skip, and never
      introduces an error. */
  lemma SkipAntitoneInTable(tasks: TaskTable, larger: TaskTable, bench: string, variant: string,
                            methodName: string, property: string)
    requires forall b, v :: b in tasks && v in tasks[b] ==> b in larger && v in larger[b]
    requires forall b, v, n :: b in tasks && v in tasks[b] && n in tasks[b][v] ==> n in larger[b][v]
    requires Skip(tasks, bench, variant, methodName, property) == Success(false)
    ensures Skip(larger, bench, variant, methodName, property) == Success(false)
  {
  }

  /** Trials and timeout do not depend on the task: one trial of at most five seconds. */
  lemma TrialsAndTimeoutFixed(workload: string, methodName: string)
    ensures Trials(workload, methodName) == 1 && Timeout() == 5
  {
  }
}
