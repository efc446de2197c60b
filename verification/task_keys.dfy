/** The two file-name shapes of exp5.1.2.py: the reconciliation key of a
    (variant, property, methodName) task, and the output id handed to a trial. */
module TaskKeys {
  import opened Wrappers
  import opened PyStrings

  const JsonSuffix := ".json"
  const TestPrefix := "test_"

  /** A name that can stand as one comma-separated field of a key and be read back:
      it holds no comma and no ".json". */
  predicate CleanName(s: string) {
    ',' !in s && !Contains(s, JsonSuffix)
  }

  /** The key `f"{bench},{method},{variant},test_{property}.json"` of lines 40 and 79. */
  function TaskKey(bench: string, methodName: string, variant: string, property: string): string
  {
    bench + "," + methodName + "," + variant + "," + TestPrefix + property + JsonSuffix
  }

  /** `key.split(".json")[0].split(",")[2]` of lines 43 and 81: the third comma field of
      the part before the first ".json"; IndexError when that part has fewer than three. */
  function VariantField(key: string): (r: Result<string, PyError>)
    ensures r.Failure? <==> |Split(BeforeFirst(key, JsonSuffix), ',')| < 3
    ensures r.Failure? ==> r.error == IndexError
    ensures r.Success? ==> r.value == Split(BeforeFirst(key, JsonSuffix), ',')[2]
    ensures r.Success? ==> ',' !in r.value
  {
    var fields := Split(BeforeFirst(key, JsonSuffix), ',');
    if |fields| > 2 then Success(fields[2]) else Failure(IndexError)
  }

  /** The output id `f'{size:02},{bench},{method},{variant},{property}'` of lines 53 and 91. */
  function DispatchId(size: nat, bench: string, methodName: string, variant: string, property: string): string
  {
    Pad2(size) + "," + bench + "," + methodName + "," + variant + "," + property
  }

  lemma LiteralsCommaFree()
    ensures ',' !in TestPrefix && ',' !in JsonSuffix
  {
    assert TestPrefix == ['t', 'e', 's', 't', '_'];
    assert JsonSuffix == ['.', 'j', 's', 'o', 'n'];
  }

  /** A name without a '.' cannot contain ".json". */
  lemma NoDotIsClean(s: string)
    requires ',' !in s && '.' !in s
    ensures CleanName(s)
  {
    MissingFirstChar(s, JsonSuffix);
  }

  /** The key is the comma-join of its four fields, the last one carrying the suffix. */
  lemma TaskKeyIsJoin(bench: string, methodName: string, variant: string, property: string)
    ensures TaskKey(bench, methodName, variant, property)
         == Join([bench, methodName, variant, TestPrefix + property + JsonSuffix], ',')
  {
    var last := TestPrefix + property + JsonSuffix;
    assert [bench, methodName, variant, last][1..] == [methodName, variant, last];
    assert [methodName, variant, last][1..] == [variant, last];
    assert [variant, last][1..] == [last];
    assert Join([variant, last], ',') == variant + [','] + last;
    assert Join([methodName, variant, last], ',') == methodName + [','] + (variant + [','] + last);
    assert Join([bench, methodName, variant, last], ',')
        == bench + [','] + (methodName + [','] + (variant + [','] + last));
  }

  /** A key of comma-free names has exactly its four fields. */
  lemma {:induction false} TaskKeyFields(bench: string, methodName: string, variant: string, property: string)
    requires ',' !in bench && ',' !in methodName && ',' !in variant && ',' !in property
    ensures Split(TaskKey(bench, methodName, variant, property), ',')
         == [bench, methodName, variant, TestPrefix + property + JsonSuffix]
  {
    LiteralsCommaFree();
    var parts := [bench, methodName, variant, TestPrefix + property + JsonSuffix];
    TaskKeyIsJoin(bench, methodName, variant, property);
    SplitJoin(parts, ',');
  }

  /** Decoding the variant out of a key gives back the variant it was built from, when
      bench, method and variant are clean names; the property may be anything. */
  lemma {:induction false} VariantFieldOfTaskKey(bench: string, methodName: string, variant: string, property: string)
    requires CleanName(bench) && CleanName(methodName) && CleanName(variant)
    ensures VariantField(TaskKey(bench, methodName, variant, property)) == Success(variant)
  {
    var tail := TestPrefix + property + JsonSuffix;
    var key := TaskKey(bench, methodName, variant, property);
    assert key == bench + [','] + (methodName + [','] + (variant + [','] + tail));
    assert ',' !in JsonSuffix by { LiteralsCommaFree(); }
    BeforeFirstCons(variant, ',', tail, JsonSuffix);
    BeforeFirstCons(methodName, ',', variant + [','] + tail, JsonSuffix);
    BeforeFirstCons(bench, ',', methodName + [','] + (variant + [','] + tail), JsonSuffix);
    var rest := BeforeFirst(tail, JsonSuffix);
    assert BeforeFirst(key, JsonSuffix) == bench + [','] + (methodName + [','] + (variant + [','] + rest));
    SplitCons(variant, ',', rest);
    SplitCons(methodName, ',', variant + [','] + rest);
    SplitCons(bench, ',', methodName + [','] + (variant + [','] + rest));
  }

  /** The first three comma fields of a key are its bench, method and variant. */
  lemma {:induction false} TaskKeyLeadingFields(bench: string, methodName: string, variant: string, property: string)
    requires ',' !in bench && ',' !in methodName && ',' !in variant
    ensures var fields := Split(TaskKey(bench, methodName, variant, property), ',');
            |fields| >= 3 && fields[0] == bench && fields[1] == methodName && fields[2] == variant
  {
    var tail := TestPrefix + property + JsonSuffix;
    assert TaskKey(bench, methodName, variant, property)
        == bench + [','] + (methodName + [','] + (variant + [','] + tail));
    SplitCons(variant, ',', tail);
    SplitCons(methodName, ',', variant + [','] + tail);
    SplitCons(bench, ',', methodName + [','] + (variant + [','] + tail));
  }

  /** Keys of comma-free bench, method and variant names determine all four names. */
  lemma TaskKeyInjective(bench: string, methodName: string, variant: string, property: string,
                         bench': string, methodName': string, variant': string, property': string)
    requires ',' !in bench && ',' !in methodName && ',' !in variant
    requires ',' !in bench' && ',' !in methodName' && ',' !in variant'
    requires TaskKey(bench, methodName, variant, property) == TaskKey(bench', methodName', variant', property')
    ensures bench == bench' && methodName == methodName' && variant == variant' && property == property'
  {
    TaskKeyLeadingFields(bench, methodName, variant, property);
    TaskKeyLeadingFields(bench', methodName', variant', property');
    var front := bench + "," + methodName + "," + variant + ",";
    var tail := TestPrefix + property + JsonSuffix;
    var tail' := TestPrefix + property' + JsonSuffix;
    assert TaskKey(bench, methodName, variant, property) == front + tail;
    assert TaskKey(bench', methodName', variant', property') == front + tail';
    assert tail == tail' by {
      assert (front + tail)[|front|..] == tail;
      assert (front + tail')[|front|..] == tail';
    }
    assert property == tail[5..|tail| - 5];
    assert property' == tail'[5..|tail'| - 5];
  }

  /** A comma in the variant name breaks the round trip: the decoder reads back only
      the part of the variant before its first comma. */
  lemma {:induction false} CommaInVariantBreaksDecoding(bench: string, methodName: string, front: string, back: string, property: string)
    requires CleanName(bench) && CleanName(methodName) && CleanName(front)
    ensures VariantField(TaskKey(bench, methodName, front + "," + back, property)) == Success(front)
  {
    var tail := back + [','] + TestPrefix + property + JsonSuffix;
    assert TaskKey(bench, methodName, front + "," + back, property)
        == bench + [','] + (methodName + [','] + (front + [','] + tail));
    assert ',' !in JsonSuffix by { LiteralsCommaFree(); }
    BeforeFirstCons(front, ',', tail, JsonSuffix);
    BeforeFirstCons(methodName, ',', front + [','] + tail, JsonSuffix);
    BeforeFirstCons(bench, ',', methodName + [','] + (front + [','] + tail), JsonSuffix);
    var rest := BeforeFirst(tail, JsonSuffix);
    SplitCons(front, ',', rest);
    SplitCons(methodName, ',', front + [','] + rest);
    SplitCons(bench, ',', methodName + [','] + (front + [','] + rest));
  }

  /** A suffix appended to an output id extends its last field. */
  lemma DispatchIdSuffix(size: nat, bench: string, methodName: string, variant: string, property: string, suffix: string)
    ensures DispatchId(size, bench, methodName, variant, property) + suffix
         == DispatchId(size, bench, methodName, variant, property + suffix)
  {
  }

  /** An output id of comma-free names has exactly five fields, the first of which
      reads back as the size. */
  lemma {:induction false} DispatchIdFields(size: nat, bench: string, methodName: string, variant: string, property: string)
    requires ',' !in bench && ',' !in methodName && ',' !in variant && ',' !in property
    ensures Split(DispatchId(size, bench, methodName, variant, property), ',')
         == [Pad2(size), bench, methodName, variant, property]
    ensures ParseDecimal(Split(DispatchId(size, bench, methodName, variant, property), ',')[0]) == size
  {
    var p := Pad2(size);
    var parts := [p, bench, methodName, variant, property];
    assert ',' !in p;
    JoinFive(p, bench, methodName, variant, property);
    SplitJoin(parts, ',');
  }

  /** Five fields written with commas between them are their comma-join. */
  lemma JoinFive(a: string, b: string, c: string, d: string, e: string)
    ensures a + "," + b + "," + c + "," + d + "," + e == Join([a, b, c, d, e], ',')
  {
    assert [a, b, c, d, e][1..] == [b, c, d, e];
    assert [b, c, d, e][1..] == [c, d, e];
    assert [c, d, e][1..] == [d, e];
    assert [d, e][1..] == [e];
    assert Join([d, e], ',') == d + [','] + e;
    assert Join([c, d, e], ',') == c + [','] + (d + [','] + e);
    assert Join([b, c, d, e], ',') == b + [','] + (c + [','] + (d + [','] + e));
    assert Join([a, b, c, d, e], ',') == a + [','] + (b + [','] + (c + [','] + (d + [','] + e)));
  }

  /** The output id written at dispatch, with or without a ".json" suffix, is never a
      reconciliation key: one has five comma fields, the other four. */
  lemma DispatchIdIsNeverTaskKey(size: nat, bench: string, methodName: string, variant: string, property: string,
                                 bench': string, methodName': string, variant': string, property': string)
    requires ',' !in bench && ',' !in methodName && ',' !in variant && ',' !in property
    requires ',' !in bench' && ',' !in methodName' && ',' !in variant' && ',' !in property'
    ensures DispatchId(size, bench, methodName, variant, property) != TaskKey(bench', methodName', variant', property')
    ensures DispatchId(size, bench, methodName, variant, property) + JsonSuffix
         != TaskKey(bench', methodName', variant', property')
  {
    LiteralsCommaFree();
    DispatchIdFields(size, bench, methodName, variant, property);
    DispatchIdFields(size, bench, methodName, variant, property + JsonSuffix);
    assert DispatchId(size, bench, methodName, variant, property) + JsonSuffix
        == DispatchId(size, bench, methodName, variant, property + JsonSuffix);
    TaskKeyFields(bench', methodName', variant', property');
  }
}
