/** Task enumeration and reconciliation of exp5.1.2.py (lines 32-43 and 72-81): the
    product of variants, properties and methods, filtered by the per-variant allow-list,
    encoded as keys, minus the results already on disk, decoded back to variant names. */
module Reconcile {
  import opened Wrappers
  import opened PyStrings
  import opened TaskKeys
  import opened Seqs

  /** The unmutated control variant. */
  const Base := "base"
  /** The one test-generation method the experiment runs. */
  const Fuzzer := "TypeBasedFuzzer"

  /** One element of `itertools.product(variants, properties, methods)`. */
  datatype Task = Task(variant: string, property: string, methodName: string)

  /** `list.remove(x)`: drops the first occurrence of `x`. Python raises ValueError when `x`
      is absent; the only caller passes an element `next` found in the same list, so that
      case is never reached, and here it leaves the list as is. */
  function RemoveFirst(s: seq<string>, x: string): (r: seq<string>)
    ensures x !in s ==> r == s
    ensures x in s ==> r == s[..IndexOf(s, x)] + s[IndexOf(s, x) + 1..]
    ensures x in s ==> |r| == |s| - 1 && multiset(r) == multiset(s) - multiset{x}
  {
    if |s| == 0 then []
    else if s[0] == x then
      RemoveAtHead(s, x);
      s[1..]
    else
      var rest := RemoveFirst(s[1..], x);
      if x in s then
        RemoveBehindHead(s, x, rest);
        SpliceCount(s, IndexOf(s, x));
        [s[0]] + rest
      else
        assert s == [s[0]] + s[1..];
        [s[0]] + rest
  }

  /** When the list starts with `x`, the first `x` is its head. */
  lemma RemoveAtHead(s: seq<string>, x: string)
    requires |s| > 0 && s[0] == x
    ensures s[1..] == s[..IndexOf(s, x)] + s[IndexOf(s, x) + 1..]
    ensures |s[1..]| == |s| - 1 && multiset(s[1..]) == multiset(s) - multiset{x}
  {
    assert s == [x] + s[1..];
    assert s[..0] + s[1..] == s[1..];
  }

  /** Taking the first `x` out of the tail, behind a head that is not `x`, is taking it
      out of the whole list. */
  lemma RemoveBehindHead(s: seq<string>, x: string, rest: seq<string>)
    requires |s| > 0 && s[0] != x && x in s
    requires rest == s[1..][..IndexOf(s[1..], x)] + s[1..][IndexOf(s[1..], x) + 1..]
    ensures [s[0]] + rest == s[..IndexOf(s, x)] + s[IndexOf(s, x) + 1..]
  {
    assert x in s[1..] by {
      assert s == [s[0]] + s[1..];
    }
    var j := IndexOf(s[1..], x);
    IndexOfTail(s, x);
    assert [s[0]] + rest == ([s[0]] + s[1..][..j]) + s[1..][j + 1..];
    assert [s[0]] + s[1..][..j] == s[..j + 1];
    assert s[1..][j + 1..] == s[j + 2..];
  }

  /** Lines 33 and 73: `variants.remove(next(v for v in variants if v.name == 'base'))`.
      `next` raises StopIteration when no variant is called base; otherwise the first base
      is taken out and the other variants keep their order. */
  function RemoveBase(variants: seq<string>): (r: Result<seq<string>, PyError>)
    ensures r.Failure? <==> Base !in variants
    ensures r.Failure? ==> r.error == StopIteration
    ensures r.Success? ==> r.value == variants[..IndexOf(variants, Base)] + variants[IndexOf(variants, Base) + 1..]
    ensures r.Success? ==> multiset(r.value) == multiset(variants) - multiset{Base}
    ensures r.Success? && multiset(variants)[Base] == 1 ==> Base !in r.value
  {
    if Base in variants then Success(RemoveFirst(variants, Base)) else Failure(StopIteration)
  }

  /** Lines 35 and 75: the methods named TypeBasedFuzzer, in their original order, as many
      times as they occur. */
  function KeepFuzzer(methods: seq<string>): (r: seq<string>)
    ensures forall m :: m in r <==> m in methods && m == Fuzzer
    ensures |r| > 0 <==> Fuzzer in methods
    ensures |r| == multiset(methods)[Fuzzer]
  {
    if |methods| == 0 then []
    else
      assert methods == [methods[0]] + methods[1..];
      (if methods[0] == Fuzzer then [Fuzzer] else []) + KeepFuzzer(methods[1..])
  }

  /** The product row for one (variant, property): one task per method, in order. */
  function MethodRow(v: string, p: string, methods: seq<string>): (r: seq<Task>)
    ensures forall t :: t in r <==> t.variant == v && t.property == p && t.methodName in methods
    ensures |r| == |methods|
  {
    if |methods| == 0 then [] else [Task(v, p, methods[0])] + MethodRow(v, p, methods[1..])
  }

  /** The product block for one variant. */
  function PropertyRows(v: string, properties: seq<string>, methods: seq<string>): (r: seq<Task>)
    ensures forall t :: t in r <==> t.variant == v && t.property in properties && t.methodName in methods
    ensures |properties| > 0 && |methods| > 0 ==> |r| > 0
  {
    if |properties| == 0 then []
    else MethodRow(v, properties[0], methods) + PropertyRows(v, properties[1..], methods)
  }

  /** `itertools.product(variants, properties, methods)`, in its iteration order. */
  function Product(variants: seq<string>, properties: seq<string>, methods: seq<string>): (r: seq<Task>)
    ensures forall t :: t in r <==> t.variant in variants && t.property in properties && t.methodName in methods
  {
    if |variants| == 0 then []
    else PropertyRows(variants[0], properties, methods) + Product(variants[1..], properties, methods)
  }

  /** The lambda of line 40 on one task once `tasks[variant]` exists: its key when
      "test_" + property is allow-listed for the variant, None otherwise. */
  function Tag(bench: string, tasks: map<string, seq<string>>, t: Task): Option<string>
    requires t.variant in tasks
  {
    if TestPrefix + t.property in tasks[t.variant]
    then Some(TaskKey(bench, t.methodName, t.variant, t.property))
    else None
  }

  /** `map` of the line-40 lambda over the tasks, in order: the first task whose variant
      has no configuration entry raises KeyError for that variant. */
  function TagAll(bench: string, tasks: map<string, seq<string>>, ts: seq<Task>): (r: Result<seq<Option<string>>, PyError>)
    ensures r.Success? <==> forall i :: 0 <= i < |ts| ==> ts[i].variant in tasks
    ensures r.Success? ==> |r.value| == |ts| && forall i :: 0 <= i < |ts| ==> r.value[i] == Tag(bench, tasks, ts[i])
    ensures r.Failure? ==> exists i :: 0 <= i < |ts| && ts[i].variant !in tasks
                                       && r.error == KeyError(Some(ts[i].variant))
                                       && forall j :: 0 <= j < i ==> ts[j].variant in tasks
  {
    if |ts| == 0 then Success([])
    else if ts[0].variant !in tasks then Failure(KeyError(Some(ts[0].variant)))
    else
      var rest := TagAll(bench, tasks, ts[1..]);
      if rest.Failure? then
        ghost var i :| 0 <= i < |ts| - 1 && ts[1..][i].variant !in tasks
                       && rest.error == KeyError(Some(ts[1..][i].variant))
                       && forall j :: 0 <= j < i ==> ts[1..][j].variant in tasks;
        assert ts[i + 1].variant !in tasks && forall j :: 0 <= j < i + 1 ==> ts[j].variant in tasks;
        Failure(rest.error)
      else Success([Tag(bench, tasks, ts[0])] + rest.value)
  }

  /** Tagging a concatenation tags the front first and stops at its first error. */
  lemma {:induction false} TagAllAppend(bench: string, tasks: map<string, seq<string>>, a: seq<Task>, b: seq<Task>)
    ensures TagAll(bench, tasks, a + b)
         == (if TagAll(bench, tasks, a).Failure? then TagAll(bench, tasks, a)
             else if TagAll(bench, tasks, b).Failure? then TagAll(bench, tasks, b)
             else Success(TagAll(bench, tasks, a).value + TagAll(bench, tasks, b).value))
    decreases |a|
  {
    if |a| == 0 {
      assert a + b == b;
      if TagAll(bench, tasks, b).Success? {
        assert [] + TagAll(bench, tasks, b).value == TagAll(bench, tasks, b).value;
      }
    } else {
      var ab := a + b;
      assert ab[1..] == a[1..] + b;
      assert ab[0] == a[0];
      TagAllAppend(bench, tasks, a[1..], b);
      if a[0].variant in tasks {
        var ra := TagAll(bench, tasks, a[1..]);
        var rb := TagAll(bench, tasks, b);
        if ra.Success? && rb.Success? {
          var h := [Tag(bench, tasks, a[0])];
          assert h + ra.value + rb.value == h + (ra.value + rb.value);
        }
      }
    }
  }

  /** The first variant, in list order, that has no configuration entry. */
  function FirstUnconfigured(variants: seq<string>, tasks: map<string, seq<string>>): (r: Option<string>)
    ensures r.Some? ==> r.value in variants && r.value !in tasks
    ensures r.None? <==> forall v :: v in variants ==> v in tasks
  {
    if |variants| == 0 then None
    else if variants[0] !in tasks then Some(variants[0])
    else FirstUnconfigured(variants[1..], tasks)
  }

  /** Tagging one variant's block fails exactly when the variant is unconfigured. */
  lemma TagAllBlock(bench: string, tasks: map<string, seq<string>>, v: string, properties: seq<string>, methods: seq<string>)
    requires |properties| > 0 && |methods| > 0
    ensures TagAll(bench, tasks, PropertyRows(v, properties, methods)).Failure? <==> v !in tasks
    ensures v !in tasks ==> TagAll(bench, tasks, PropertyRows(v, properties, methods)).error == KeyError(Some(v))
  {
    var rows := PropertyRows(v, properties, methods);
    assert rows[0] in rows;
    assert forall i :: 0 <= i < |rows| ==> rows[i] in rows;
  }

  /** Over the whole product the KeyError, if any, names the first unconfigured variant;
      with no property or no method nothing is looked up at all. */
  lemma {:induction false} TagAllProduct(bench: string, tasks: map<string, seq<string>>,
                                         variants: seq<string>, properties: seq<string>, methods: seq<string>)
    ensures TagAll(bench, tasks, Product(variants, properties, methods)).Failure?
        <==> |properties| > 0 && |methods| > 0 && FirstUnconfigured(variants, tasks).Some?
    ensures TagAll(bench, tasks, Product(variants, properties, methods)).Failure?
        ==> TagAll(bench, tasks, Product(variants, properties, methods)).error == KeyError(FirstUnconfigured(variants, tasks))
    decreases |variants|
  {
    var ts := Product(variants, properties, methods);
    if |properties| > 0 && |methods| > 0 && |variants| > 0 {
      var block := PropertyRows(variants[0], properties, methods);
      TagAllAppend(bench, tasks, block, Product(variants[1..], properties, methods));
      TagAllBlock(bench, tasks, variants[0], properties, methods);
      TagAllProduct(bench, tasks, variants[1..], properties, methods);
    }
  }

  /** The line-40 filter rejects at least one task, so `None` is in the set. */
  predicate SomeFiltered(variants: seq<string>, properties: seq<string>, methods: seq<string>, tasks: map<string, seq<string>>)
  {
    exists v, p, m :: v in variants && p in properties && m in methods
                      && v in tasks && TestPrefix + p !in tasks[v]
  }

  /** The reconciliation key of a task. */
  function KeyOf(bench: string, t: Task): string {
    TaskKey(bench, t.methodName, t.variant, t.property)
  }

  function KeysOf(bench: string, ts: set<Task>): set<string> {
    set t | t in ts :: KeyOf(bench, t)
  }

  function VariantsOf(ts: set<Task>): set<string> {
    set t | t in ts :: t.variant
  }

  /** The allow-list of line 40 admits the task. */
  predicate Admitted(tasks: map<string, seq<string>>, t: Task) {
    t.variant in tasks && TestPrefix + t.property in tasks[t.variant]
  }

  /** The tasks of the product, as a set. */
  function ProductTasks(variants: seq<string>, properties: seq<string>, methods: seq<string>): set<Task> {
    set t | t in Product(variants, properties, methods)
  }

  /** The tasks of the product that the allow-list admits. */
  function AllowedTasks(variants: seq<string>, properties: seq<string>, methods: seq<string>,
                        tasks: map<string, seq<string>>): set<Task>
  {
    set t | t in Product(variants, properties, methods) && Admitted(tasks, t)
  }

  /** The tasks whose key is not in the results directory. */
  function Unfinished(bench: string, ts: set<Task>, finished: set<string>): set<Task> {
    set t | t in ts && KeyOf(bench, t) !in finished
  }

  /** Lines 40-41 (Part 1): the set of line-40 values with `None` removed. A KeyError naming
      the first unconfigured variant when anything is looked up; otherwise the allow-listed
      keys when some task was filtered out; otherwise (every task admitted, or nothing to
      enumerate) `remove(None)` raises KeyError. */
  function CandidateKeys1(bench: string, variants: seq<string>, properties: seq<string>, methods: seq<string>,
                          tasks: map<string, seq<string>>): (r: Result<set<string>, PyError>)
    ensures r.Failure? ==> r.error.KeyError?
    ensures r == if |properties| > 0 && |methods| > 0 && FirstUnconfigured(variants, tasks).Some?
                 then Failure(KeyError(FirstUnconfigured(variants, tasks)))
                 else if SomeFiltered(variants, properties, methods, tasks)
                 then Success(KeysOf(bench, AllowedTasks(variants, properties, methods, tasks)))
                 else Failure(KeyError(None))
  {
    TagAllProduct(bench, tasks, variants, properties, methods);
    var tagged :- TagAll(bench, tasks, Product(variants, properties, methods));
    TaggedNone(bench, variants, properties, methods, tasks);
    TaggedKeys(bench, variants, properties, methods, tasks);
    if None !in tagged then Failure(KeyError(None))
    else Success(set o | o in tagged && o.Some? :: o.value)
  }

  /** After a successful tagging, `None` is among the values iff some task was filtered out. */
  lemma TaggedNone(bench: string, variants: seq<string>, properties: seq<string>, methods: seq<string>,
                   tasks: map<string, seq<string>>)
    requires TagAll(bench, tasks, Product(variants, properties, methods)).Success?
    ensures None in TagAll(bench, tasks, Product(variants, properties, methods)).value
        <==> SomeFiltered(variants, properties, methods, tasks)
  {
    var ts := Product(variants, properties, methods);
    var tagged := TagAll(bench, tasks, ts).value;
    if None in tagged {
      var i :| 0 <= i < |tagged| && tagged[i] == None;
      assert ts[i] in ts;
    }
    if SomeFiltered(variants, properties, methods, tasks) {
      var v, p, m :| v in variants && p in properties && m in methods && v in tasks && TestPrefix + p !in tasks[v];
      assert Task(v, p, m) in ts;
      var i :| 0 <= i < |ts| && ts[i] == Task(v, p, m);
      assert tagged[i] == None;
    }
  }

  /** After a successful tagging, the keys among the values are those of the admitted tasks. */
  lemma TaggedKeys(bench: string, variants: seq<string>, properties: seq<string>, methods: seq<string>,
                   tasks: map<string, seq<string>>)
    requires TagAll(bench, tasks, Product(variants, properties, methods)).Success?
    ensures (set o | o in TagAll(bench, tasks, Product(variants, properties, methods)).value && o.Some? :: o.value)
         == KeysOf(bench, AllowedTasks(variants, properties, methods, tasks))
  {
    TaggedKeysOf(bench, tasks, Product(variants, properties, methods));
  }

  /** The same for any list of tasks. */
  lemma TaggedKeysOf(bench: string, tasks: map<string, seq<string>>, ts: seq<Task>)
    requires TagAll(bench, tasks, ts).Success?
    ensures (set o | o in TagAll(bench, tasks, ts).value && o.Some? :: o.value)
         == KeysOf(bench, set t | t in ts && Admitted(tasks, t))
  {
    var tagged := TagAll(bench, tasks, ts).value;
    var got := set o | o in tagged && o.Some? :: o.value;
    var allowed := set t | t in ts && Admitted(tasks, t);
    forall k | k in got ensures k in KeysOf(bench, allowed) {
      var o :| o in tagged && o.Some? && o.value == k;
      var i :| 0 <= i < |tagged| && tagged[i] == o;
      assert ts[i] in allowed;
    }
    forall k | k in KeysOf(bench, allowed) ensures k in got {
      var t :| t in allowed && k == KeyOf(bench, t);
      var i :| 0 <= i < |ts| && ts[i] == t;
      assert tagged[i] == Some(k);
      assert tagged[i] in tagged;
    }
  }

  /** Line 79 (Part 2): the keys of every task of the product; there is no allow-list. */
  function CandidateKeys2(bench: string, variants: seq<string>, properties: seq<string>, methods: seq<string>): (r: set<string>)
    ensures forall v, p, m :: v in variants && p in properties && m in methods ==> TaskKey(bench, m, v, p) in r
  {
    var ts := Product(variants, properties, methods);
    var r := KeysOf(bench, ProductTasks(variants, properties, methods));
    forall v, p, m | v in variants && p in properties && m in methods ensures TaskKey(bench, m, v, p) in r {
      assert Task(v, p, m) in ts;
      assert KeyOf(bench, Task(v, p, m)) in r;
    }
    r
  }

  /** Lines 42 and 80: the tasks whose result name is not yet in the results directory. */
  function Remaining(all: set<string>, finished: set<string>): (r: set<string>)
    ensures r <= all && r !! finished
    ensures all <= r + finished
  {
    all - finished
  }

  /** Recomputing against the same listing changes nothing: no finished name survives. */
  lemma RemainingIdempotent(all: set<string>, finished: set<string>)
    ensures Remaining(Remaining(all, finished), finished) == Remaining(all, finished)
  {
  }

  /** A longer listing of finished results never adds a task. */
  lemma RemainingAntitone(all: set<string>, finished: set<string>, more: set<string>)
    requires finished <= more
    ensures Remaining(all, more) <= Remaining(all, finished)
  {
  }

  /** Lines 43 and 81: the variant field of every remaining key; a key with fewer than
      three comma fields before its first ".json" raises IndexError. */
  function RemainingVariants(remaining: set<string>): (r: Result<set<string>, PyError>)
    ensures r.Failure? <==> exists k :: k in remaining && VariantField(k).Failure?
    ensures r.Failure? ==> r.error == IndexError
    ensures r.Success? ==> forall v :: v in r.value ==> exists k :: k in remaining && VariantField(k) == Success(v)
    ensures r.Success? ==> forall k :: k in remaining ==> VariantField(k).value in r.value
  {
    if exists k :: k in remaining && VariantField(k).Failure? then Failure(IndexError)
    else Success(set k | k in remaining :: VariantField(k).value)
  }

  /** Taking the finished names out of a set of keys leaves the keys of the unfinished tasks. */
  lemma RemainingKeysOf(bench: string, ts: set<Task>, finished: set<string>)
    ensures Remaining(KeysOf(bench, ts), finished) == KeysOf(bench, Unfinished(bench, ts, finished))
  {
    var unfinished := Unfinished(bench, ts, finished);
    forall k | k in Remaining(KeysOf(bench, ts), finished) ensures k in KeysOf(bench, unfinished) {
      var t :| t in ts && k == KeyOf(bench, t);
      assert t in unfinished;
    }
  }

  /** Decoding the keys of tasks with clean bench, method and variant names never fails
      and gives back exactly the tasks' variants. */
  lemma RemainingVariantsOfKeys(bench: string, ts: set<Task>)
    requires CleanName(bench)
    requires forall t :: t in ts ==> CleanName(t.variant) && CleanName(t.methodName)
    ensures RemainingVariants(KeysOf(bench, ts)) == Success(VariantsOf(ts))
  {
    var keys := KeysOf(bench, ts);
    forall k | k in keys ensures VariantField(k).Success? {
      var t :| t in ts && k == KeyOf(bench, t);
      VariantFieldOfTaskKey(bench, t.methodName, t.variant, t.property);
    }
    assert RemainingVariants(keys).Success?;
    var got := RemainingVariants(keys).value;
    forall v | v in got ensures v in VariantsOf(ts) {
      var k :| k in keys && v == VariantField(k).value;
      var t :| t in ts && k == KeyOf(bench, t);
      VariantFieldOfTaskKey(bench, t.methodName, t.variant, t.property);
    }
    forall v | v in VariantsOf(ts) ensures v in got {
      var t :| t in ts && v == t.variant;
      VariantFieldOfTaskKey(bench, t.methodName, t.variant, t.property);
      assert KeyOf(bench, t) in keys;
    }
    assert got == VariantsOf(ts);
  }
}
