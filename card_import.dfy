/** `Card.import_from_json` of models/card.py: the records are imported with
    their "fakes" lists taken out; then each original's fakes are imported,
    each linked to the original through "original_id". */
module CardImport {
  import opened Errors
  import opened Json
  import opened Records

  /** The error `obj.pop("fakes")` raises for one record, if any: a list's
      `pop` wants an integer, other non-dicts have no `pop`, and a dict
      without the key raises KeyError. */
  function PopError(v: Value): Option<Error>
  {
    if v.Dict? then (if "fakes" in v.fields then None else Some(KeyError))
    else if v.List? then Some(TypeError)
    else Some(AttributeError)
  }

  /** Every record is a dict with a "fakes" key. */
  predicate SplitOk(records: seq<Value>)
  {
    forall j :: 0 <= j < |records| ==> PopError(records[j]).None?
  }

  /** The error of the first record whose "fakes" cannot be popped. */
  function FirstPopError(records: seq<Value>): (e: Option<Error>)
    ensures e.None? <==> SplitOk(records)
  {
    if records == [] then None
    else if PopError(records[0]).Some? then PopError(records[0])
    else
      assert forall j :: 1 <= j < |records| ==> records[j] == records[1..][j - 1];
      FirstPopError(records[1..])
  }

  lemma {:induction false} FirstPopErrorAt(records: seq<Value>, i: nat)
    requires i < |records|
    requires forall j :: 0 <= j < i ==> PopError(records[j]).None?
    requires PopError(records[i]).Some?
    ensures FirstPopError(records) == PopError(records[i])
  {
    if i > 0 {
      FirstPopErrorAt(records[1..], i - 1);
    }
  }

  /** The "fakes" value of a record. */
  function FakesOf(v: Value): Value
    requires PopError(v).None?
  {
    v.fields["fakes"]
  }

  /** A record with its "fakes" key popped. */
  function Stripped(v: Value): (r: Value)
    requires PopError(v).None?
    ensures r.Dict? && r.fields.Keys == v.fields.Keys - {"fakes"}
    ensures forall k :: k in r.fields ==> r.fields[k] == v.fields[k]
  {
    Dict(v.fields - {"fakes"})
  }

  function StrippedAll(records: seq<Value>): (rs: seq<Value>)
    requires SplitOk(records)
    ensures |rs| == |records|
    ensures forall j :: 0 <= j < |records| ==> rs[j] == Stripped(records[j])
  {
    seq(|records|, j requires 0 <= j < |records| => Stripped(records[j]))
  }

  /** A "fakes" value that is truthy but is not a list of dicts: Python
      fails with TypeError on `fake["original_id"] = ...`. */
  predicate BadFakes(v: Value)
  {
    Truthy(v) && !IsListOfDicts(v)
  }

  /** The popped "fakes" values of all records, in order. */
  function FakesAll(records: seq<Value>): (fs: seq<Value>)
    requires SplitOk(records)
    ensures |fs| == |records|
    ensures forall j :: 0 <= j < |records| ==> fs[j] == FakesOf(records[j])
  {
    seq(|records|, j requires 0 <= j < |records| => FakesOf(records[j]))
  }

  /** The position of the first bad "fakes" value, or the number of values
      when there is none. */
  function FirstBadFakes(fakes: seq<Value>): (k: nat)
    ensures k <= |fakes|
    ensures forall j :: 0 <= j < k ==> !BadFakes(fakes[j])
    ensures k < |fakes| ==> BadFakes(fakes[k])
  {
    if fakes == [] then 0
    else if BadFakes(fakes[0]) then 0
    else
      var k := FirstBadFakes(fakes[1..]);
      assert forall j :: 1 <= j < |fakes| ==> fakes[j] == fakes[1..][j - 1];
      1 + k
  }

  lemma {:induction false} FirstBadFakesAt(fakes: seq<Value>, i: nat)
    requires i <= |fakes|
    requires forall j :: 0 <= j < i ==> !BadFakes(fakes[j])
    requires i < |fakes| ==> BadFakes(fakes[i])
    ensures FirstBadFakes(fakes) == i
  {
    if i > 0 {
      FirstBadFakesAt(fakes[1..], i - 1);
    }
  }

  /** The fakes of one original, each with "original_id" set to the id of
      the original. */
  function Linked(fakes: seq<Record>, id: nat): (vs: seq<Value>)
    ensures |vs| == |fakes|
    ensures forall k :: 0 <= k < |fakes| ==> vs[k] == Dict(fakes[k]["original_id" := Int(id)])
  {
    seq(|fakes|, k requires 0 <= k < |fakes| => Dict(fakes[k]["original_id" := Int(id)]))
  }

  /** None of the first `i` values is bad, one value at a time. */
  predicate NoBadBefore(fakes: seq<Value>, i: nat)
    requires i <= |fakes|
  {
    i == 0 || (NoBadBefore(fakes, i - 1) && !BadFakes(fakes[i - 1]))
  }

  lemma {:induction false} NoBadBeforeAll(fakes: seq<Value>, i: nat)
    requires i <= |fakes| && NoBadBefore(fakes, i)
    ensures forall j :: 0 <= j < i ==> !BadFakes(fakes[j])
  {
    if i > 0 {
      NoBadBeforeAll(fakes, i - 1);
    }
  }

  /** The rows created for the fakes of the first `n` originals, the
      original at position `j` having been created with id `base + j`. */
  function FakeRows(fakes: seq<Value>, defaults: Option<Record>, base: nat, n: nat): seq<Record>
    requires n <= |fakes|
  {
    if n == 0 then []
    else FakeRows(fakes, defaults, base, n - 1) + FakeRowsOf(fakes[n - 1], defaults, base + n - 1)
  }

  lemma FakeRowsStep(fakes: seq<Value>, defaults: Option<Record>, base: nat, i: nat)
    requires i < |fakes|
    ensures FakeRows(fakes, defaults, base, i + 1)
            == FakeRows(fakes, defaults, base, i) + FakeRowsOf(fakes[i], defaults, base + i)
  {
  }

  /** The rows created for the fakes `f` of the original with id `id`: each
      fake dict with "original_id" set, then the defaults merged in; none
      when `f` is falsy (or bad, in which case the import fails before). */
  function FakeRowsOf(f: Value, defaults: Option<Record>, id: nat): seq<Record>
  {
    if Truthy(f) && IsListOfDicts(f)
    then seq(|f.items|, k requires 0 <= k < |f.items| => Merged(f.items[k].fields["original_id" := Int(id)], defaults))
    else []
  }

  lemma LinkedRows(f: Value, defaults: Option<Record>, id: nat)
    requires Truthy(f) && IsListOfDicts(f)
    ensures forall j :: 0 <= j < |Linked(Dicts(f), id)| ==> Linked(Dicts(f), id)[j].Dict?
    ensures MergedAll(Linked(Dicts(f), id), defaults) == FakeRowsOf(f, defaults, id)
  {
  }

  /** When the defaults do not name "original_id", every fake row points
      back at the id of an original among the first `n` whose fakes are a
      non-empty list. */
  lemma {:induction false} FakeRowsPointBack(fakes: seq<Value>, defaults: Option<Record>, base: nat, n: nat)
    requires n <= |fakes|
    requires defaults.None? || "original_id" !in defaults.value
    ensures forall r: Record :: r in FakeRows(fakes, defaults, base, n) ==>
              "original_id" in r && r["original_id"].Int? &&
              base <= r["original_id"].i < base + n &&
              Truthy(fakes[r["original_id"].i - base])
  {
    if n > 0 {
      FakeRowsPointBack(fakes, defaults, base, n - 1);
      var more := FakeRowsOf(fakes[n - 1], defaults, base + n - 1);
      forall r | r in more
        ensures "original_id" in r && r["original_id"] == Int(base + n - 1) && Truthy(fakes[n - 1])
      {
        var k :| 0 <= k < |more| && more[k] == r;
      }
    }
  }

  /** An original keeps no "fakes" key, unless the defaults put one back. */
  lemma OriginalsHaveNoFakes(records: seq<Value>, defaults: Option<Record>)
    requires SplitOk(records)
    requires defaults.None? || "fakes" !in defaults.value
    ensures forall r :: r in MergedAll(StrippedAll(records), defaults) ==> "fakes" !in r
  {
    var rs := MergedAll(StrippedAll(records), defaults);
    forall r | r in rs ensures "fakes" !in r {
      var j :| 0 <= j < |rs| && rs[j] == r;
    }
  }

  /** The first loop of `Card.import_from_json`: pops "fakes" from every
      record, giving the stripped records and the popped values in order. */
  method SplitFakes(records: seq<Value>) returns (res: Result<(seq<Value>, seq<Value>)>)
    ensures res.Err? <==> FirstPopError(records).Some?
    ensures res.Err? ==> res.error == FirstPopError(records).value
    ensures res.Ok? ==> res.value.0 == StrippedAll(records)
    ensures res.Ok? ==> res.value.1 == FakesAll(records)
  {
    var i := 0;
    var stripped := [];
    var fakeMap := [];
    while i < |records|
      invariant 0 <= i <= |records|
      invariant forall j :: 0 <= j < i ==> PopError(records[j]).None?
      invariant |stripped| == i && |fakeMap| == i
      invariant forall j :: 0 <= j < i ==> stripped[j] == Stripped(records[j]) && fakeMap[j] == FakesOf(records[j])
    {
      var e := PopError(records[i]);
      if e.Some? {
        FirstPopErrorAt(records, i);
        return Err(e.value);
      }
      stripped := stripped + [Stripped(records[i])];
      fakeMap := fakeMap + [FakesOf(records[i])];
      i := i + 1;
    }
    res := Ok((stripped, fakeMap));
  }

  /** `for fake in fakes: fake["original_id"] = obj.id_`. */
  method LinkFakes(fakes: seq<Record>, id: nat) returns (linked: seq<Value>)
    ensures linked == Linked(fakes, id)
  {
    linked := [];
    var k := 0;
    while k < |fakes|
      invariant 0 <= k <= |fakes|
      invariant linked == Linked(fakes[..k], id)
    {
      linked := linked + [Dict(fakes[k]["original_id" := Int(id)])];
      k := k + 1;
    }
    assert fakes[..k] == fakes;
  }

  /** One call of the base import for the linked fakes of one original. */
  method ImportLinked(table: RecordTable, linked: seq<Value>, defaults: Option<Record>)
    requires forall j :: 0 <= j < |linked| ==> linked[j].Dict?
    modifies table
    ensures table.rows == old(table.rows) + MergedAll(linked, defaults)
  {
    DictPrefixAt(linked, |linked|);
    assert linked[..|linked|] == linked;
    var _ := table.ImportFromJson(linked, defaults);
  }

  /** The body of the second loop for one original with id `id` and fakes
      `f`: when truthy and well formed, the fakes are imported linked to
      `id`. */
  method ImportFakesOf(table: RecordTable, f: Value, defaults: Option<Record>, id: nat)
    returns (ok: bool)
    modifies table
    ensures ok ==> !BadFakes(f) && table.rows == old(table.rows) + FakeRowsOf(f, defaults, id)
    ensures !ok ==> BadFakes(f) && table.rows == old(table.rows)
  {
    if !Truthy(f) {
      return true;
    }
    if !IsListOfDicts(f) {
      return false;
    }
    var linked := LinkFakes(Dicts(f), id);
    LinkedRows(f, defaults, id);
    ImportLinked(table, linked, defaults);
    ok := true;
  }

  /** One iteration of the second loop: the fakes of the original at
      position `i` are imported after those of the originals before it. */
  method ImportFakesStep(table: RecordTable, fakeMap: seq<Value>, defaults: Option<Record>, base: nat, i: nat,
                         ghost start: seq<Record>)
    returns (ok: bool)
    requires i < |fakeMap|
    requires table.rows == start + FakeRows(fakeMap, defaults, base, i)
    modifies table
    ensures ok ==> !BadFakes(fakeMap[i]) && table.rows == start + FakeRows(fakeMap, defaults, base, i + 1)
    ensures !ok ==> BadFakes(fakeMap[i]) && table.rows == old(table.rows)
  {
    ghost var done := FakeRows(fakeMap, defaults, base, i);
    ok := ImportFakesOf(table, fakeMap[i], defaults, base + i);
    if ok {
      ghost var more := FakeRowsOf(fakeMap[i], defaults, base + i);
      AppendAssoc(start, done, more);
      FakeRowsStep(fakeMap, defaults, base, i);
    }
  }

  /** The second loop of `Card.import_from_json`, up to the first bad fakes
      value: `i` originals have had their fakes imported, and `failed` says
      whether the loop stopped at a bad value. */
  method ImportFakesLoop(table: RecordTable, fakeMap: seq<Value>, defaults: Option<Record>, base: nat)
    returns (i: nat, failed: bool)
    modifies table
    ensures i <= |fakeMap|
    ensures NoBadBefore(fakeMap, i)
    ensures failed ==> i < |fakeMap| && BadFakes(fakeMap[i])
    ensures !failed ==> i == |fakeMap|
    ensures table.rows == old(table.rows) + FakeRows(fakeMap, defaults, base, i)
  {
    ghost var start := table.rows;
    i := 0;
    while i < |fakeMap|
      invariant 0 <= i <= |fakeMap|
      invariant NoBadBefore(fakeMap, i)
      invariant table.rows == start + FakeRows(fakeMap, defaults, base, i)
    {
      var ok := ImportFakesStep(table, fakeMap, defaults, base, i, start);
      if !ok {
        return i, true;
      }
      i := i + 1;
    }
    failed := false;
  }

  /** The second loop of `Card.import_from_json`: imports the fakes of each
      original in order, the original at position `j` having id `base + j`.
      The first bad fakes value stops it with TypeError. */
  method ImportFakes(table: RecordTable, fakeMap: seq<Value>, defaults: Option<Record>, base: nat)
    returns (res: Result<()>)
    modifies table
    ensures var k := FirstBadFakes(fakeMap);
            table.rows == old(table.rows) + FakeRows(fakeMap, defaults, base, k)
    ensures res == if FirstBadFakes(fakeMap) == |fakeMap| then Ok(()) else Err(TypeError)
  {
    var i, failed := ImportFakesLoop(table, fakeMap, defaults, base);
    NoBadBeforeAll(fakeMap, i);
    FirstBadFakesAt(fakeMap, i);
    res := if failed then Err(TypeError) else Ok(());
  }

  /** The card table after `Card.import_from_json(records, defaults)`. */
  function ImportedRows(rows: seq<Record>, records: seq<Value>, defaults: Option<Record>): seq<Record>
  {
    if !SplitOk(records) then rows
    else
      var fakes := FakesAll(records);
      rows + MergedAll(StrippedAll(records), defaults) + FakeRows(fakes, defaults, |rows|, FirstBadFakes(fakes))
  }

  /** What `Card.import_from_json(records, defaults)` raises, if anything. */
  function ImportOutcome(records: seq<Value>): Result<()>
  {
    if FirstPopError(records).Some? then Err(FirstPopError(records).value)
    else if FirstBadFakes(FakesAll(records)) < |records| then Err(TypeError)
    else Ok(())
  }

  /** `Card.import_from_json` on the record table: reads the given records,
      or the file's when none are given, pops "fakes" from every record (any
      failure there creates nothing), imports the originals, then for each
      original in order imports its fakes linked to it. A bad fakes value
      stops the import with TypeError, after the rows created so far. */
  method ImportCards(table: RecordTable, jsonDict: seq<Value>, fileRecords: seq<Value>, defaults: Option<Record>)
    returns (res: Result<()>)
    modifies table
    ensures var records := Source(jsonDict, fileRecords);
            && table.rows == ImportedRows(old(table.rows), records, defaults)
            && res == ImportOutcome(records)
            && (FirstPopError(records).Some? ==>
                  res == Err(FirstPopError(records).value) && table.rows == old(table.rows))
  {
    var records := Source(jsonDict, fileRecords);
    var split := SplitFakes(records);
    if split.Err? {
      assert !SplitOk(records);
      return Err(split.error);
    }
    var (stripped, fakeMap) := split.value;
    var base := |table.rows|;
    DictPrefixAt(stripped, |stripped|);
    assert stripped[..|stripped|] == stripped;
    var created := table.ImportFromJson(stripped, defaults);
    assert created.value == Ids(base, |records|);
    assert fakeMap == FakesAll(records);
    res := ImportFakes(table, fakeMap, defaults, base);
    assert FirstPopError(records).None?;
  }
}
