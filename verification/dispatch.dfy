/** The dispatch loops of exp5.1.2.py (lines 45-62 and 83-100), as the ordered sequence
    of trials they hand to `run_trial`. */
module Dispatch {
  import opened PyStrings
  import opened TaskKeys
  import opened Reconcile
  import opened Seqs

  /** The fuel sizes swept for every task, in loop order (lines 50 and 88). */
  const FuelSizes: seq<nat> := [7, 100, 1000, 10000]
  /** Trials per configuration and per-trial timeout in seconds (lines 58-59 and 96-97). */
  const TrialCount: nat := 10
  const TrialTimeout: nat := 60

  /** The fields of benchtool's TrialConfig that the driver sets. */
  datatype TrialConfig = TrialConfig(bench: string, methodName: string, property: string, trialLabel: string,
                                     trials: nat, timeout: nat, file: string)

  /** One call of `run_trial`, made after PICKNEXTFUEL is set to `fuel`. */
  datatype Trial = Trial(variant: string, property: string, methodName: string, size: nat, fuel: string,
                         config: TrialConfig)

  /** The body of the size loop for one (variant, property, method, size). */
  function MakeTrial(bench: string, variant: string, property: string, methodName: string, size: nat): Trial
  {
    Trial(variant, property, methodName, size, Decimal(size),
          TrialConfig(bench, methodName, TestPrefix + property, methodName + Decimal(size),
                      TrialCount, TrialTimeout, DispatchId(size, bench, methodName, variant, property)))
  }

  /** Part 1 consults the per-variant allow-list; Part 2 has none. */
  datatype AllowList = Unrestricted | Configured(tasks: map<string, seq<string>>)

  /** The guard of the variant loop (line 45 with an allow-list, line 83 without). */
  predicate VariantSelected(allow: AllowList, pending: set<string>, v: string) {
    (allow.Unrestricted? || v in allow.tasks) && v in pending
  }

  /** The guard of the property loop (line 47 with an allow-list, line 85 without). */
  predicate PropertyAllowed(allow: AllowList, v: string, p: string) {
    allow.Unrestricted? || (v in allow.tasks && TestPrefix + p in allow.tasks[v])
  }

  predicate SameTask(a: Trial, b: Trial) {
    a.variant == b.variant && a.property == b.property && a.methodName == b.methodName
  }

  /** Trials come in runs of four, one task per run, its sizes in the order of FuelSizes. */
  predicate InSizeRuns(r: seq<Trial>) {
    && |r| % 4 == 0
    && (forall i :: 0 <= i < |r| ==> r[i].size == FuelSizes[i % 4])
    && (forall i :: 0 < i < |r| && i % 4 != 0 ==> SameTask(r[i - 1], r[i]))
  }

  lemma InSizeRunsAppend(a: seq<Trial>, b: seq<Trial>)
    requires InSizeRuns(a) && InSizeRuns(b)
    ensures InSizeRuns(a + b)
  {
    var r := a + b;
    ShiftByRuns(|r|, |a|);
    assert |r| - |a| == |b|;
    forall i | 0 <= i < |a| ensures r[i].size == FuelSizes[i % 4] {
      assert r[i] == a[i];
    }
    forall i | 0 < i < |a| && i % 4 != 0 ensures SameTask(r[i - 1], r[i]) {
      assert r[i - 1] == a[i - 1] && r[i] == a[i];
    }
    forall i | |a| <= i < |r| ensures r[i].size == FuelSizes[i % 4] {
      ShiftByRuns(i, |a|);
      assert r[i] == b[i - |a|];
    }
    forall i | |a| <= i < |r| && 0 < i && i % 4 != 0 ensures SameTask(r[i - 1], r[i]) {
      ShiftByRuns(i, |a|);
      assert r[i - 1] == b[i - 1 - |a|] && r[i] == b[i - |a|];
    }
  }

  /** Skipping whole runs keeps the position within a run. */
  lemma ShiftByRuns(i: int, k: int)
    requires k % 4 == 0
    ensures (i - k) % 4 == i % 4
  {
    var n := k / 4;
    assert k == 4 * n;
    assert i - k == (i % 4) + 4 * (i / 4 - n);
  }

  /** Four trials of one task, sizes in order, form a single run. */
  lemma OneRun(r: seq<Trial>)
    requires |r| == |FuelSizes|
    requires forall i :: 0 <= i < |r| ==> r[i].size == FuelSizes[i]
    requires forall i :: 0 < i < |r| ==> SameTask(r[0], r[i])
    ensures InSizeRuns(r)
  {
    forall i | 0 <= i < |r| ensures r[i].size == FuelSizes[i % 4] {
      assert i % 4 == i;
    }
  }

  /** The size loop (lines 50-62 and 88-100): four trials, sizes in loop order. */
  function SizeSweep(bench: string, v: string, p: string, m: string): (r: seq<Trial>)
    ensures InSizeRuns(r) && |r| == 4
    ensures forall t :: t in r <==> t.size in FuelSizes && t == MakeTrial(bench, v, p, m, t.size)
    ensures forall t :: multiset(r)[t] == if t.size in FuelSizes && t == MakeTrial(bench, v, p, m, t.size) then 1 else 0
  {
    var r := seq(|FuelSizes|, i requires 0 <= i < |FuelSizes| => MakeTrial(bench, v, p, m, FuelSizes[i]));
    SweepMembers(bench, v, p, m, FuelSizes, r);
    FuelSizesDistinct();
    SweepOnce(bench, v, p, m, FuelSizes, r);
    OneRun(r);
    r
  }

  lemma FuelSizesDistinct()
    ensures NoDup(FuelSizes)
  {
  }

  /** Over distinct sizes, a sweep runs each of its trials once. */
  lemma SweepOnce(bench: string, v: string, p: string, m: string, sizes: seq<nat>, r: seq<Trial>)
    requires |r| == |sizes| && NoDup(sizes)
    requires forall i :: 0 <= i < |r| ==> r[i] == MakeTrial(bench, v, p, m, sizes[i])
    ensures forall t :: multiset(r)[t] == if t.size in sizes && t == MakeTrial(bench, v, p, m, t.size) then 1 else 0
  {
    SweepMembers(bench, v, p, m, sizes, r);
    forall i, j | 0 <= i < j < |r| ensures r[i] != r[j] {
      assert r[i].size == sizes[i] && r[j].size == sizes[j];
    }
    forall t ensures multiset(r)[t] == if t in r then 1 else 0 {
      NoDupCount(r, t);
    }
  }

  /** A sweep over any list of sizes holds exactly the trials built for those sizes. */
  lemma SweepMembers(bench: string, v: string, p: string, m: string, sizes: seq<nat>, r: seq<Trial>)
    requires |r| == |sizes|
    requires forall i :: 0 <= i < |r| ==> r[i] == MakeTrial(bench, v, p, m, sizes[i])
    ensures forall t :: t in r <==> t.size in sizes && t == MakeTrial(bench, v, p, m, t.size)
  {
    forall t | t in r ensures t.size in sizes && t == MakeTrial(bench, v, p, m, t.size) {
      var i :| 0 <= i < |r| && r[i] == t;
      assert t.size == sizes[i];
    }
    forall t: Trial | t.size in sizes && t == MakeTrial(bench, v, p, m, t.size) ensures t in r {
      var i :| 0 <= i < |sizes| && sizes[i] == t.size;
      assert r[i] == t;
    }
  }

  /** The method loop (lines 49 and 87): only methods named TypeBasedFuzzer run. */
  function MethodLoop(bench: string, v: string, p: string, methods: seq<string>): (r: seq<Trial>)
    ensures InSizeRuns(r)
    ensures forall t :: t in r <==> t.methodName in methods && t.methodName == Fuzzer && t.size in FuelSizes
                                    && t == MakeTrial(bench, v, p, t.methodName, t.size)
    ensures |r| == |FuelSizes| * multiset(methods)[Fuzzer]
  {
    if |methods| == 0 then []
    else
      HeadCount(methods, Fuzzer);
      var here := if methods[0] == Fuzzer then SizeSweep(bench, v, p, methods[0]) else [];
      var rest := MethodLoop(bench, v, p, methods[1..]);
      InSizeRunsAppend(here, rest);
      here + rest
  }

  /** The property loop (lines 47 and 85). */
  function PropertyLoop(bench: string, allow: AllowList, v: string, properties: seq<string>, methods: seq<string>)
    : (r: seq<Trial>)
    ensures InSizeRuns(r)
    ensures forall t :: t in r <==> t.property in properties && PropertyAllowed(allow, v, t.property)
                                    && t.methodName in methods && t.methodName == Fuzzer && t.size in FuelSizes
                                    && t == MakeTrial(bench, v, t.property, t.methodName, t.size)
  {
    if |properties| == 0 then []
    else
      var here := PropertyBlock(bench, allow, v, properties[0], methods);
      var rest := PropertyLoop(bench, allow, v, properties[1..], methods);
      InSizeRunsAppend(here, rest);
      here + rest
  }

  /** One pass of the property loop: the method loop when the property is allowed. */
  function PropertyBlock(bench: string, allow: AllowList, v: string, p: string, methods: seq<string>): (r: seq<Trial>)
    ensures InSizeRuns(r)
    ensures forall t :: t in r <==> PropertyAllowed(allow, v, p) && t.methodName in methods && t.methodName == Fuzzer
                                    && t.size in FuelSizes && t == MakeTrial(bench, v, p, t.methodName, t.size)
  {
    if PropertyAllowed(allow, v, p) then MethodLoop(bench, v, p, methods) else []
  }

  /** How often the method loop runs the trial of size `size`: once per TypeBasedFuzzer
      entry among the methods. */
  lemma {:induction false} MethodLoopCount(bench: string, v: string, p: string, methods: seq<string>, size: nat)
    ensures multiset(MethodLoop(bench, v, p, methods))[MakeTrial(bench, v, p, Fuzzer, size)]
            == if size in FuelSizes then multiset(methods)[Fuzzer] else 0
  {
    if |methods| > 0 {
      MethodLoopCount(bench, v, p, methods[1..], size);
      HeadCount(methods, Fuzzer);
      var here := if methods[0] == Fuzzer then SizeSweep(bench, v, p, methods[0]) else [];
      var rest := MethodLoop(bench, v, p, methods[1..]);
      assert MethodLoop(bench, v, p, methods) == here + rest;
      var t := MakeTrial(bench, v, p, Fuzzer, size);
      assert t.size == size;
      assert multiset(here)[t] == if methods[0] == Fuzzer && size in FuelSizes then 1 else 0;
    }
  }

  /** `n * k` as `n` repeated additions, which keeps the counting proofs linear. */
  function Times(n: nat, k: int): int {
    if n == 0 then 0 else k + Times(n - 1, k)
  }

  lemma {:induction false} TimesIsProduct(n: nat, k: int)
    ensures Times(n, k) == n * k
  {
    if n > 0 {
      TimesIsProduct(n - 1, k);
    }
  }

  /** The count of a nested loop from its first block and the rest: the block contributes
      `k` when it is the block of the item, the rest `m1` further blocks of `k`. */
  lemma CountStep(total: int, block: int, rest: int, m: nat, m1: nat, k: int, first: bool, cond: bool)
    requires total == block + rest
    requires block == if first && cond then k else 0
    requires rest == if cond then Times(m1, k) else 0
    requires m == (if first then 1 else 0) + m1
    ensures total == if cond then Times(m, k) else 0
  {
  }

  /** How often the property loop runs the trial of property `q` at size `size`: once per
      occurrence of `q` in the list and per TypeBasedFuzzer entry among the methods. */
  lemma {:induction false} PropertyLoopCount(bench: string, allow: AllowList, v: string, properties: seq<string>,
                                             methods: seq<string>, q: string, size: nat)
    ensures multiset(PropertyLoop(bench, allow, v, properties, methods))[MakeTrial(bench, v, q, Fuzzer, size)]
            == if PropertyAllowed(allow, v, q) && size in FuelSizes
               then multiset(properties)[q] * multiset(methods)[Fuzzer] else 0
  {
    PropertyLoopRepeats(bench, allow, v, properties, methods, q, size);
    TimesIsProduct(multiset(properties)[q], multiset(methods)[Fuzzer]);
  }

  /** The property loop runs the method loop of `q` once per occurrence of `q`. */
  lemma {:induction false} PropertyLoopRepeats(bench: string, allow: AllowList, v: string, properties: seq<string>,
                                               methods: seq<string>, q: string, size: nat)
    ensures multiset(PropertyLoop(bench, allow, v, properties, methods))[MakeTrial(bench, v, q, Fuzzer, size)]
            == if PropertyAllowed(allow, v, q) && size in FuelSizes
               then Times(multiset(properties)[q], multiset(methods)[Fuzzer]) else 0
  {
    if |properties| > 0 {
      PropertyLoopRepeats(bench, allow, v, properties[1..], methods, q, size);
      PropertyLoopSplit(bench, allow, v, properties, methods, MakeTrial(bench, v, q, Fuzzer, size));
      PropertyBlockCount(bench, allow, v, properties[0], methods, q, size);
      HeadCount(properties, q);
      var t := MakeTrial(bench, v, q, Fuzzer, size);
      CountStep(multiset(PropertyLoop(bench, allow, v, properties, methods))[t],
                multiset(PropertyBlock(bench, allow, v, properties[0], methods))[t],
                multiset(PropertyLoop(bench, allow, v, properties[1..], methods))[t],
                multiset(properties)[q], multiset(properties[1..])[q], multiset(methods)[Fuzzer],
                properties[0] == q, PropertyAllowed(allow, v, q) && size in FuelSizes);
    }
  }

  /** The count in the property loop is the count in its first block plus the count in
      the rest. */
  lemma PropertyLoopSplit(bench: string, allow: AllowList, v: string, properties: seq<string>, methods: seq<string>,
                          t: Trial)
    requires |properties| > 0
    ensures multiset(PropertyLoop(bench, allow, v, properties, methods))[t]
            == multiset(PropertyBlock(bench, allow, v, properties[0], methods))[t]
               + multiset(PropertyLoop(bench, allow, v, properties[1..], methods))[t]
  {
    var here := PropertyBlock(bench, allow, v, properties[0], methods);
    var rest := PropertyLoop(bench, allow, v, properties[1..], methods);
    assert PropertyLoop(bench, allow, v, properties, methods) == here + rest;
  }

  /** One block holds the trial of property `q` only when it is the block of `q`. */
  lemma PropertyBlockCount(bench: string, allow: AllowList, v: string, p: string, methods: seq<string>,
                           q: string, size: nat)
    ensures multiset(PropertyBlock(bench, allow, v, p, methods))[MakeTrial(bench, v, q, Fuzzer, size)]
            == if p == q && PropertyAllowed(allow, v, q) && size in FuelSizes then multiset(methods)[Fuzzer] else 0
  {
    var t := MakeTrial(bench, v, q, Fuzzer, size);
    assert t.property == q;
    if p == q && PropertyAllowed(allow, v, q) {
      MethodLoopCount(bench, v, q, methods, size);
    } else {
      assert t !in PropertyBlock(bench, allow, v, p, methods);
    }
  }

  /** A trial the nested loops run: every guard holds and its fields are the ones the
      loop body builds. */
  predicate Scheduled(bench: string, allow: AllowList, pending: set<string>, variants: seq<string>,
                      properties: seq<string>, methods: seq<string>, t: Trial)
  {
    && t.variant in variants && VariantSelected(allow, pending, t.variant)
    && t.property in properties && PropertyAllowed(allow, t.variant, t.property)
    && t.methodName in methods && t.methodName == Fuzzer
    && t.size in FuelSizes
    && t == MakeTrial(bench, t.variant, t.property, t.methodName, t.size)
  }

  /** The variant loop (lines 45 and 83), over every variant of the benchmark. */
  function VariantLoop(bench: string, allow: AllowList, pending: set<string>, variants: seq<string>,
                       properties: seq<string>, methods: seq<string>): (r: seq<Trial>)
    ensures InSizeRuns(r)
    ensures forall t :: t in r <==> Scheduled(bench, allow, pending, variants, properties, methods, t)
  {
    if |variants| == 0 then []
    else
      var here := VariantBlock(bench, allow, pending, variants[0], properties, methods);
      var rest := VariantLoop(bench, allow, pending, variants[1..], properties, methods);
      InSizeRunsAppend(here, rest);
      here + rest
  }

  /** One pass of the variant loop: the property loop when the variant is selected. */
  function VariantBlock(bench: string, allow: AllowList, pending: set<string>, v: string, properties: seq<string>,
                        methods: seq<string>): (r: seq<Trial>)
    ensures InSizeRuns(r)
    ensures forall t :: t in r ==> t.variant == v && VariantSelected(allow, pending, v)
  {
    if VariantSelected(allow, pending, v) then PropertyLoop(bench, allow, v, properties, methods) else []
  }

  /** How often the variant loop runs the trial of variant `w`, property `q` and size `size`:
      the product of the occurrences of `w` among the variants, of `q` among the properties
      and of TypeBasedFuzzer among the methods. */
  lemma VariantLoopCount(bench: string, allow: AllowList, pending: set<string>, variants: seq<string>,
                         properties: seq<string>, methods: seq<string>, w: string, q: string, size: nat)
    ensures multiset(VariantLoop(bench, allow, pending, variants, properties, methods))[MakeTrial(bench, w, q, Fuzzer, size)]
            == if VariantSelected(allow, pending, w) && PropertyAllowed(allow, w, q) && size in FuelSizes
               then multiset(variants)[w] * (multiset(properties)[q] * multiset(methods)[Fuzzer]) else 0
  {
    PropertyLoopCount(bench, allow, w, properties, methods, q, size);
    var c := multiset(PropertyLoop(bench, allow, w, properties, methods))[MakeTrial(bench, w, q, Fuzzer, size)];
    VariantLoopRepeats(bench, allow, pending, variants, properties, methods, w, q, size, c);
    TimesIsProduct(multiset(variants)[w], c);
  }

  /** With distinct variant and property names and a single TypeBasedFuzzer entry, every
      trial the loops schedule runs exactly once. */
  lemma VariantLoopOnce(bench: string, allow: AllowList, pending: set<string>, variants: seq<string>,
                        properties: seq<string>, methods: seq<string>, w: string, q: string, size: nat)
    requires NoDup(variants) && NoDup(properties) && multiset(methods)[Fuzzer] == 1
    ensures multiset(VariantLoop(bench, allow, pending, variants, properties, methods))[MakeTrial(bench, w, q, Fuzzer, size)]
            == if w in variants && q in properties && VariantSelected(allow, pending, w) && PropertyAllowed(allow, w, q)
                  && size in FuelSizes
               then 1 else 0
  {
    VariantLoopCount(bench, allow, pending, variants, properties, methods, w, q, size);
    NoDupCount(variants, w);
    NoDupCount(properties, q);
  }

  /** The variant loop runs the property loop of `w`, which holds the trial `c` times, once
      per occurrence of `w`. */
  lemma {:induction false} VariantLoopRepeats(bench: string, allow: AllowList, pending: set<string>,
                                              variants: seq<string>, properties: seq<string>, methods: seq<string>,
                                              w: string, q: string, size: nat, c: int)
    requires c == multiset(PropertyLoop(bench, allow, w, properties, methods))[MakeTrial(bench, w, q, Fuzzer, size)]
    ensures multiset(VariantLoop(bench, allow, pending, variants, properties, methods))[MakeTrial(bench, w, q, Fuzzer, size)]
            == if VariantSelected(allow, pending, w) then Times(multiset(variants)[w], c) else 0
  {
    if |variants| > 0 {
      var t := MakeTrial(bench, w, q, Fuzzer, size);
      VariantLoopRepeats(bench, allow, pending, variants[1..], properties, methods, w, q, size, c);
      VariantLoopSplit(bench, allow, pending, variants, properties, methods, t);
      VariantBlockCount(bench, allow, pending, variants[0], properties, methods, w, q, size);
      HeadCount(variants, w);
      CountStep(multiset(VariantLoop(bench, allow, pending, variants, properties, methods))[t],
                multiset(VariantBlock(bench, allow, pending, variants[0], properties, methods))[t],
                multiset(VariantLoop(bench, allow, pending, variants[1..], properties, methods))[t],
                multiset(variants)[w], multiset(variants[1..])[w], c,
                variants[0] == w, VariantSelected(allow, pending, w));
    }
  }

  /** The count in the variant loop is the count in its first block plus the count in the
      rest. */
  lemma VariantLoopSplit(bench: string, allow: AllowList, pending: set<string>, variants: seq<string>,
                         properties: seq<string>, methods: seq<string>, t: Trial)
    requires |variants| > 0
    ensures multiset(VariantLoop(bench, allow, pending, variants, properties, methods))[t]
            == multiset(VariantBlock(bench, allow, pending, variants[0], properties, methods))[t]
               + multiset(VariantLoop(bench, allow, pending, variants[1..], properties, methods))[t]
  {
    var here := VariantBlock(bench, allow, pending, variants[0], properties, methods);
    var rest := VariantLoop(bench, allow, pending, variants[1..], properties, methods);
    assert VariantLoop(bench, allow, pending, variants, properties, methods) == here + rest;
  }

  /** One block holds the trials of variant `w` only when it is the block of `w`. */
  lemma VariantBlockCount(bench: string, allow: AllowList, pending: set<string>, v: string, properties: seq<string>,
                          methods: seq<string>, w: string, q: string, size: nat)
    ensures multiset(VariantBlock(bench, allow, pending, v, properties, methods))[MakeTrial(bench, w, q, Fuzzer, size)]
            == if v == w && VariantSelected(allow, pending, w)
               then multiset(PropertyLoop(bench, allow, w, properties, methods))[MakeTrial(bench, w, q, Fuzzer, size)]
               else 0
  {
    var t := MakeTrial(bench, w, q, Fuzzer, size);
    assert t.variant == w;
    if !(v == w && VariantSelected(allow, pending, w)) {
      assert t !in VariantBlock(bench, allow, pending, v, properties, methods);
    }
  }

  /** The trials follow the order of the property list. */
  predicate PropertiesInOrder(properties: seq<string>, r: seq<Trial>) {
    && (forall i :: 0 <= i < |r| ==> r[i].property in properties)
    && (forall i, j :: 0 <= i < j < |r| ==> IndexOf(properties, r[i].property) <= IndexOf(properties, r[j].property))
  }

  /** The trials follow the nesting of the loops: variants in list order, and the trials
      of one variant in the order of the property list. */
  predicate InLoopOrder(variants: seq<string>, properties: seq<string>, r: seq<Trial>) {
    && (forall i :: 0 <= i < |r| ==> r[i].variant in variants && r[i].property in properties)
    && (forall i, j :: 0 <= i < j < |r| ==>
          || IndexOf(variants, r[i].variant) < IndexOf(variants, r[j].variant)
          || (r[i].variant == r[j].variant && IndexOf(properties, r[i].property) <= IndexOf(properties, r[j].property)))
  }

  /** With distinct property names, the property loop emits its trials property by property,
      in list order. */
  lemma {:induction false} PropertyLoopInOrder(bench: string, allow: AllowList, v: string, properties: seq<string>,
                                               methods: seq<string>)
    requires NoDup(properties)
    ensures PropertiesInOrder(properties, PropertyLoop(bench, allow, v, properties, methods))
  {
    if |properties| > 0 {
      NoDupTail(properties);
      PropertyLoopInOrder(bench, allow, v, properties[1..], methods);
      var here := PropertyBlock(bench, allow, v, properties[0], methods);
      var rest := PropertyLoop(bench, allow, v, properties[1..], methods);
      assert PropertyLoop(bench, allow, v, properties, methods) == here + rest;
      PropertyOrderStep(properties, here, rest);
    }
  }

  /** Prepending the block of the first property keeps the property order. */
  lemma PropertyOrderStep(properties: seq<string>, here: seq<Trial>, rest: seq<Trial>)
    requires NoDup(properties) && |properties| > 0
    requires forall t :: t in here ==> t.property == properties[0]
    requires PropertiesInOrder(properties[1..], rest)
    ensures PropertiesInOrder(properties, here + rest)
  {
    NoDupTail(properties);
    var r := here + rest;
    forall i | 0 <= i < |r| ensures r[i].property in properties {
      if i < |here| {
        assert r[i] == here[i] && here[i] in here;
      } else {
        assert r[i] == rest[i - |here|];
      }
    }
    forall i, j | 0 <= i < j < |r| ensures IndexOf(properties, r[i].property) <= IndexOf(properties, r[j].property) {
      if j < |here| {
        assert r[i] == here[i] && here[i] in here && r[j] == here[j] && here[j] in here;
      } else if i < |here| {
        assert r[i] == here[i] && here[i] in here;
      } else {
        assert r[i] == rest[i - |here|] && r[j] == rest[j - |here|];
        IndexOfTail(properties, r[i].property);
        IndexOfTail(properties, r[j].property);
      }
    }
  }

  /** With distinct variant and property names, the variant loop emits its trials in loop
      order: variant by variant, and within a variant property by property. */
  lemma {:induction false} VariantLoopInOrder(bench: string, allow: AllowList, pending: set<string>,
                                              variants: seq<string>, properties: seq<string>, methods: seq<string>)
    requires NoDup(variants) && NoDup(properties)
    ensures InLoopOrder(variants, properties, VariantLoop(bench, allow, pending, variants, properties, methods))
  {
    if |variants| > 0 {
      NoDupTail(variants);
      VariantLoopInOrder(bench, allow, pending, variants[1..], properties, methods);
      var here := VariantBlock(bench, allow, pending, variants[0], properties, methods);
      var rest := VariantLoop(bench, allow, pending, variants[1..], properties, methods);
      if VariantSelected(allow, pending, variants[0]) {
        PropertyLoopInOrder(bench, allow, variants[0], properties, methods);
      }
      assert VariantLoop(bench, allow, pending, variants, properties, methods) == here + rest;
      VariantOrderStep(variants, properties, here, rest);
    }
  }

  /** Prepending the block of the first variant, itself in property order, keeps the loop
      order. */
  lemma VariantOrderStep(variants: seq<string>, properties: seq<string>, here: seq<Trial>, rest: seq<Trial>)
    requires NoDup(variants) && |variants| > 0
    requires forall t :: t in here ==> t.variant == variants[0]
    requires PropertiesInOrder(properties, here)
    requires InLoopOrder(variants[1..], properties, rest)
    ensures InLoopOrder(variants, properties, here + rest)
  {
    NoDupTail(variants);
    var r := here + rest;
    forall i | 0 <= i < |r| ensures r[i].variant in variants && r[i].property in properties {
      if i < |here| {
        assert r[i] == here[i] && here[i] in here;
      } else {
        assert r[i] == rest[i - |here|];
      }
    }
    forall i, j | 0 <= i < j < |r|
      ensures || IndexOf(variants, r[i].variant) < IndexOf(variants, r[j].variant)
              || (r[i].variant == r[j].variant && IndexOf(properties, r[i].property) <= IndexOf(properties, r[j].property))
    {
      if j < |here| {
        assert r[i] == here[i] && here[i] in here && r[j] == here[j] && here[j] in here;
      } else if i < |here| {
        assert r[i] == here[i] && here[i] in here && r[j] == rest[j - |here|];
        IndexOfTail(variants, r[j].variant);
      } else {
        assert r[i] == rest[i - |here|] && r[j] == rest[j - |here|];
        IndexOfTail(variants, r[i].variant);
        IndexOfTail(variants, r[j].variant);
      }
    }
  }

  /** The output id of a trial starts with its size, zero-padded to two digits: only the
      smallest size is padded ("07"); the others print as they are. */
  lemma OnlySmallestSizePadded()
    ensures Pad2(FuelSizes[0]) == "07"
    ensures forall i :: 1 <= i < |FuelSizes| ==> Pad2(FuelSizes[i]) == Decimal(FuelSizes[i])
  {
    assert Decimal(7) == "7";
  }
}
