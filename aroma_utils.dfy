/**
  * `feature/aroma/utils.ts`: `getAvailableDataTypes`, the scan for the data
  * types some record carries. The records are generic in the source; here a
  * record type `T` comes with the test `row[field] !== undefined` for it.
  */
module AromaUtils {
  import opened JsValues
  import opened SeqUtil
  import opened AromaTypes

  /** `result.indexOf(f) === -1 && present` then `result.push(f)`. */
  function PushIfNew(acc: seq<Field>, f: Field, present: bool): (r: seq<Field>)
    ensures forall g :: g in r <==> g in acc || (present && g == f)
    ensures NoDuplicates(acc) ==> NoDuplicates(r)
  {
    if present && f !in acc then acc + [f] else acc
  }

  /** The inner `forEach` over the first `|fields|` enum values, for one row. */
  function ScanFields<T>(acc: seq<Field>, row: T, defined: (T, Field) -> bool, fields: seq<Field>): (r: seq<Field>)
    ensures forall g :: g in r <==> g in acc || (g in fields && defined(row, g))
    ensures NoDuplicates(acc) ==> NoDuplicates(r)
  {
    if fields == [] then acc
    else
      var last := fields[|fields| - 1];
      PushIfNew(ScanFields(acc, row, defined, fields[..|fields| - 1]), last, defined(row, last))
  }

  /** The `reduce`: every enum value some record defines, in first-seen order. */
  function Scan<T>(records: seq<T>, defined: (T, Field) -> bool): (r: seq<Field>)
    ensures NoDuplicates(r)
  {
    if records == [] then []
    else ScanFields(Scan(records[..|records| - 1], defined), records[|records| - 1], defined, EnumFields)
  }

  /** The final `filter`: names whose lower case contains "relative" are dropped. */
  predicate NotRelative(f: Field) {
    !Contains(Lower(FieldName(f)), "relative")
  }

  /** `getAvailableDataTypes(records)` as a value. */
  function AvailableDataTypes<T>(records: seq<T>, defined: (T, Field) -> bool): seq<Field> {
    Filter(Scan(records, defined), NotRelative)
  }

  /**
    * `getAvailableDataTypes(records)`: the reduce that pushes each enum value a
    * row defines and the result does not hold yet, then the filter.
    */
  method GetAvailableDataTypes<T>(records: seq<T>, defined: (T, Field) -> bool) returns (types: seq<Field>)
    ensures types == AvailableDataTypes(records, defined)
  {
    var result: seq<Field> := [];
    var i := 0;
    while i < |records|
      invariant 0 <= i <= |records|
      invariant result == Scan(records[..i], defined)
    {
      var row := records[i];
      var start := result;
      var k := 0;
      while k < |EnumFields|
        invariant 0 <= k <= |EnumFields|
        invariant result == ScanFields(start, row, defined, EnumFields[..k])
      {
        var f := EnumFields[k];
        if defined(row, f) && f !in result {
          result := result + [f];
        }
        assert EnumFields[..k + 1][..k] == EnumFields[..k];
        k := k + 1;
      }
      assert EnumFields[..k] == EnumFields;
      assert records[..i + 1][..i] == records[..i];
      i := i + 1;
    }
    assert records[..i] == records;
    types := Filter(result, NotRelative);
  }

  // ---------------------------------------------------------------------
  // What the scan yields
  // ---------------------------------------------------------------------

  /** `s.includes(t)` needs `t` no longer than `s`. */
  lemma {:induction false} ContainsNoLonger(s: string, t: string)
    requires Contains(s, t)
    ensures |t| <= |s|
  {
    if !(t <= s) {
      ContainsNoLonger(s[1..], t);
    }
  }

  /** A string found at position `k` of `s` is contained in `s`. */
  lemma {:induction false} ContainsAt(s: string, t: string, k: nat)
    requires k <= |s| && t <= s[k..]
    ensures Contains(s, t)
  {
    if k > 0 {
      assert s[1..][k - 1..] == s[k..];
      ContainsAt(s[1..], t, k - 1);
    }
  }

  /** Exactly the two absolute fields survive the "relative" filter. */
  lemma NotRelativeIsAbsolute(f: Field)
    ensures NotRelative(f) <==> f == Oav || f == Fd
  {
    var name := FieldName(f);
    if f == Oav || f == Fd {
      AbsoluteNameLacksRelative(name);
    } else {
      var k := if f == OavRelative then 3 else 2;
      assert name[k..] == "Relative";
      RelativeNameHasRelative(name, k);
    }
  }

  /** A name shorter than "relative" never contains it. */
  lemma AbsoluteNameLacksRelative(name: string)
    requires |name| < 8
    ensures !Contains(Lower(name), "relative")
  {
    if Contains(Lower(name), "relative") {
      ContainsNoLonger(Lower(name), "relative");
    }
  }

  /** A name that reads "Relative" from position `k` contains "relative" once lower-cased. */
  lemma RelativeNameHasRelative(name: string, k: nat)
    requires k + 8 == |name| && name[k..] == "Relative"
    ensures Contains(Lower(name), "relative")
  {
    var u := Lower(name);
    assert u[k..] == "relative" by {
      assert forall i :: k <= i < |name| ==> u[i] == LowerChar(name[i]);
      assert LowerChar('R') == 'r';
    }
    ContainsAt(u, "relative", k);
  }

  /** The index of the first record defining `f`, or the number of records when none does. */
  function FirstDefining<T>(records: seq<T>, defined: (T, Field) -> bool, f: Field): (i: nat)
    ensures i <= |records|
    ensures i < |records| ==> defined(records[i], f)
    ensures forall j :: 0 <= j < i && j < |records| ==> !defined(records[j], f)
  {
    if records == [] then 0
    else
      var init := records[..|records| - 1];
      var k := FirstDefining(init, defined, f);
      assert forall j :: 0 <= j < |init| ==> init[j] == records[j];
      if k < |init| then k
      else if defined(records[|records| - 1], f) then |init|
      else |records|
  }

  /**
    * The available types from where `oav` and `fd` are first defined, out of
    * `n` records: the ones defined at all, the earlier first, `oav` first on a tie.
    */
  function OrderedTypes(oavAt: nat, fdAt: nat, n: nat): seq<Field> {
    if oavAt < n && fdAt < n then (if oavAt <= fdAt then [Oav, Fd] else [Fd, Oav])
    else if oavAt < n then [Oav]
    else if fdAt < n then [Fd]
    else []
  }

  /** Filtering after one push is the push after filtering, for a field the filter keeps. */
  lemma FilterPushIfNew(acc: seq<Field>, f: Field, present: bool, keep: Field -> bool)
    ensures keep(f) ==> Filter(PushIfNew(acc, f, present), keep) == PushIfNew(Filter(acc, keep), f, present)
    ensures !keep(f) ==> Filter(PushIfNew(acc, f, present), keep) == Filter(acc, keep)
  {
    if present && f !in acc {
      FilterAppend(acc, [f], keep);
      assert Filter([f], keep) == if keep(f) then [f] else [];
    }
    if keep(f) && f in Filter(acc, keep) {
      assert f in acc;
    }
  }

  /** The inner loop over one row: a push attempt per enum value, in declaration order. */
  lemma ScanFieldsUnrolled<T>(acc: seq<Field>, row: T, defined: (T, Field) -> bool)
    ensures ScanFields(acc, row, defined, EnumFields)
         == PushIfNew(PushIfNew(PushIfNew(PushIfNew(acc, Oav, defined(row, Oav)),
                                          OavRelative, defined(row, OavRelative)),
                                Fd, defined(row, Fd)),
                      FdRelative, defined(row, FdRelative))
  {
    var a1 := PushIfNew(acc, Oav, defined(row, Oav));
    var a2 := PushIfNew(a1, OavRelative, defined(row, OavRelative));
    var a3 := PushIfNew(a2, Fd, defined(row, Fd));
    var e1, e2, e3 := EnumFields[..1], EnumFields[..2], EnumFields[..3];
    assert e1[..0] == [] && e1[0] == Oav;
    assert ScanFields(acc, row, defined, e1) == a1;
    assert e2[..1] == e1 && e2[1] == OavRelative;
    assert ScanFields(acc, row, defined, e2) == a2;
    assert e3[..2] == e2 && e3[2] == Fd;
    assert ScanFields(acc, row, defined, e3) == a3;
    assert EnumFields[..3] == e3;
  }

  /** Of the four push attempts, the filter sees only those for `oav` and `fd`. */
  lemma FilterFourPushes(a0: seq<Field>, po: bool, por: bool, pf: bool, pfr: bool)
    ensures Filter(PushIfNew(PushIfNew(PushIfNew(PushIfNew(a0, Oav, po), OavRelative, por), Fd, pf), FdRelative, pfr), NotRelative)
         == PushIfNew(PushIfNew(Filter(a0, NotRelative), Oav, po), Fd, pf)
  {
    var a1 := PushIfNew(a0, Oav, po);
    var a2 := PushIfNew(a1, OavRelative, por);
    var a3 := PushIfNew(a2, Fd, pf);
    NotRelativeIsAbsolute(Oav);
    NotRelativeIsAbsolute(OavRelative);
    NotRelativeIsAbsolute(Fd);
    NotRelativeIsAbsolute(FdRelative);
    FilterPushIfNew(a0, Oav, po, NotRelative);
    FilterPushIfNew(a1, OavRelative, por, NotRelative);
    FilterPushIfNew(a2, Fd, pf, NotRelative);
    FilterPushIfNew(a3, FdRelative, pfr, NotRelative);
  }

  /** The filtered scan of one more record: the record's `oav`, then its `fd`. */
  lemma ScanStep<T>(records: seq<T>, defined: (T, Field) -> bool)
    requires records != []
    ensures var last := records[|records| - 1];
      AvailableDataTypes(records, defined)
        == PushIfNew(PushIfNew(AvailableDataTypes(records[..|records| - 1], defined), Oav, defined(last, Oav)),
                     Fd, defined(last, Fd))
  {
    var last := records[|records| - 1];
    var a0 := Scan(records[..|records| - 1], defined);
    ScanFieldsUnrolled(a0, last, defined);
    FilterFourPushes(a0, defined(last, Oav), defined(last, OavRelative), defined(last, Fd), defined(last, FdRelative));
  }

  /** Where `f` is first defined, once one more record is seen. */
  lemma FirstDefiningStep<T>(records: seq<T>, defined: (T, Field) -> bool, f: Field)
    requires records != []
    ensures var m := |records| - 1;
      var k := FirstDefining(records[..m], defined, f);
      FirstDefining(records, defined, f) == if k < m then k else if defined(records[m], f) then m else m + 1
  {
  }

  /** The closed form of one more record, pushed `oav` first and `fd` second. */
  lemma OrderedTypesStep(oav0: nat, fd0: nat, m: nat, po: bool, pf: bool)
    requires oav0 <= m && fd0 <= m
    ensures var oavAt := if oav0 < m then oav0 else if po then m else m + 1;
      var fdAt := if fd0 < m then fd0 else if pf then m else m + 1;
      OrderedTypes(oavAt, fdAt, m + 1) == PushIfNew(PushIfNew(OrderedTypes(oav0, fd0, m), Oav, po), Fd, pf)
  {
  }

  /**
    * `getAvailableDataTypes` in closed form: `oav` is listed iff some record
    * defines it (a `null` value counts), likewise `fd`; when both are, the one a
    * record defines first comes first, and `oav` wins within one record.
    */
  lemma {:induction false} AvailableDataTypesShape<T>(records: seq<T>, defined: (T, Field) -> bool)
    ensures AvailableDataTypes(records, defined)
         == OrderedTypes(FirstDefining(records, defined, Oav), FirstDefining(records, defined, Fd), |records|)
  {
    if records == [] {
      assert Scan(records, defined) == [];
    } else {
      var m := |records| - 1;
      var init := records[..m];
      AvailableDataTypesShape(init, defined);
      ScanStep(records, defined);
      FirstDefiningStep(records, defined, Oav);
      FirstDefiningStep(records, defined, Fd);
      OrderedTypesStep(FirstDefining(init, defined, Oav), FirstDefining(init, defined, Fd), m,
                       defined(records[m], Oav), defined(records[m], Fd));
    }
  }

  /** What the closed form lists: `oav` iff it is defined, `fd` likewise, each once. */
  lemma OrderedTypesFacts(oavAt: nat, fdAt: nat, n: nat)
    ensures var r := OrderedTypes(oavAt, fdAt, n);
      && (forall g :: g in r <==> (g == Oav && oavAt < n) || (g == Fd && fdAt < n))
      && (forall i :: 0 <= i < |r| ==> r[i] == Oav || r[i] == Fd)
      && NoDuplicates(r)
      && |r| <= 2
      && (n == 0 ==> r == [])
  {
  }

  /** Only `oav` and `fd`, each at most once, so at most two; none for no records. */
  lemma AvailableDataTypesBounds<T>(records: seq<T>, defined: (T, Field) -> bool)
    ensures var r := AvailableDataTypes(records, defined);
      && (forall i :: 0 <= i < |r| ==> r[i] == Oav || r[i] == Fd)
      && NoDuplicates(r)
      && |r| <= 2
      && (records == [] ==> r == [])
  {
    AvailableDataTypesShape(records, defined);
    OrderedTypesFacts(FirstDefining(records, defined, Oav), FirstDefining(records, defined, Fd), |records|);
  }

  /** A type is listed iff it is `oav` or `fd` and some record defines it. */
  lemma AvailableDataTypesMember<T>(records: seq<T>, defined: (T, Field) -> bool, f: Field)
    ensures f in AvailableDataTypes(records, defined)
        <==> (f == Oav || f == Fd) && exists i :: 0 <= i < |records| && defined(records[i], f)
  {
    AvailableDataTypesShape(records, defined);
    OrderedTypesFacts(FirstDefining(records, defined, Oav), FirstDefining(records, defined, Fd), |records|);
    var k := FirstDefining(records, defined, f);
    if k < |records| {
      assert defined(records[k], f);
    }
  }
}
