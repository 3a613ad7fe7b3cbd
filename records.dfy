/** `Model.import_from_json` of models/base.py: every JSON record becomes one
    row of a table, after the `defaults` dict has been merged into it. */
module Records {
  import opened Errors
  import opened Json

  /** The rows of one table in creation order; a row's id is its position. */
  class RecordTable {
    var rows: seq<Record>

    constructor ()
      ensures rows == []
    {
      rows := [];
    }

    /** `cls.create(**dict_)`: appends the row and gives back its id. */
    method Create(r: Record) returns (id: nat)
      modifies this
      ensures rows == old(rows) + [r]
      ensures id == |old(rows)|
    {
      id := |rows|;
      rows := rows + [r];
    }

    /** `Model.import_from_json`: creates one row per record, in order. The
        first record that is not a dict stops the import with the error
        Python raises for it (`update` is not an attribute of it, or `**`
        cannot unpack it); the rows created before it stay. The ids of the
        rows created are returned (the source returns nothing; the caller in
        models/card.py expects them). */
    method ImportFromJson(records: seq<Value>, defaults: Option<Record>)
      returns (res: Result<seq<nat>>)
      modifies this
      ensures var k := DictPrefix(records);
              rows == old(rows) + MergedAll(records[..k], defaults)
      ensures res.Ok? <==> DictPrefix(records) == |records|
      ensures res.Ok? ==> res.value == Ids(|old(rows)|, |records|)
      ensures res.Err? ==> res.error == UnpackError(defaults)
    {
      ValuesPrefix(records, defaults);
      res := ImportEntries(Values(records), defaults);
    }

    /** The loop of `Model.import_from_json` over any list: each entry that
        yields a row (`EntryRow`) is created, in order; the first one that
        does not stops the loop with its error, after the rows before it. */
    method ImportEntries(entries: seq<Entry>, defaults: Option<Record>)
      returns (res: Result<seq<nat>>)
      modifies this
      ensures var k := RowPrefix(entries, defaults);
              rows == old(rows) + RowsOf(entries[..k], defaults)
      ensures res.Ok? <==> RowPrefix(entries, defaults) == |entries|
      ensures res.Ok? ==> res.value == Ids(|old(rows)|, |entries|)
      ensures res.Err? ==> var k := RowPrefix(entries, defaults);
                           k < |entries| && EntryRow(entries[k], defaults) == Err(res.error)
    {
      var base := |rows|;
      var i := 0;
      while i < |entries|
        invariant 0 <= i <= |entries|
        invariant forall j :: 0 <= j < i ==> EntryRow(entries[j], defaults).Ok?
        invariant rows == old(rows) + RowsOf(entries[..i], defaults)
      {
        var row := EntryRow(entries[i], defaults);
        if row.Err? {
          RowPrefixAt(entries, defaults, i);
          return Err(row.error);
        }
        AppendAssoc(old(rows), RowsOf(entries[..i], defaults), [row.value]);
        RowsOfStep(entries, defaults, i);
        var _ := Create(row.value);
        i := i + 1;
      }
      RowPrefixAt(entries, defaults, i);
      assert entries[..i] == entries;
      res := Ok(Ids(base, i));
    }
  }

  /** An element of the list the base import iterates over: a JSON value,
      or the builtin type `dict` itself (what models/encyclopedia.py:41
      appends). */
  datatype Entry = Val(v: Value) | DictType

  /** What the loop body makes of one entry: `dict_.update(defaults)` when
      the defaults are truthy, then `cls.create(**dict_)`. A dict gives its
      merged row. Any other JSON value fails: without `update` when the
      defaults are truthy, and at `**` otherwise. The type `dict` passes
      `dict.update(defaults)`, which updates `defaults` with nothing, and
      then fails at `**`, since a type is no mapping. */
  function EntryRow(e: Entry, defaults: Option<Record>): (r: Result<Record>)
    ensures e.Val? && e.v.Dict? ==> r == Ok(Merged(e.v.fields, defaults))
    ensures e.Val? && !e.v.Dict? ==> r == Err(UnpackError(defaults))
    ensures e.DictType? ==> r == Err(TypeError)
  {
    match e
    case Val(v) => if v.Dict? then Ok(Merged(v.fields, defaults)) else Err(UnpackError(defaults))
    case DictType => Err(TypeError)
  }

  /** The rows of entries that all yield one. */
  function RowsOf(entries: seq<Entry>, defaults: Option<Record>): (rs: seq<Record>)
    requires forall j :: 0 <= j < |entries| ==> EntryRow(entries[j], defaults).Ok?
    ensures |rs| == |entries|
    ensures forall j :: 0 <= j < |entries| ==> rs[j] == EntryRow(entries[j], defaults).value
  {
    seq(|entries|, j requires 0 <= j < |entries| => EntryRow(entries[j], defaults).value)
  }

  lemma RowsOfStep(entries: seq<Entry>, defaults: Option<Record>, i: nat)
    requires i < |entries| && forall j :: 0 <= j <= i ==> EntryRow(entries[j], defaults).Ok?
    ensures RowsOf(entries[..i + 1], defaults)
            == RowsOf(entries[..i], defaults) + [EntryRow(entries[i], defaults).value]
  {
  }

  /** The number of entries before the first one that yields no row. */
  function RowPrefix(entries: seq<Entry>, defaults: Option<Record>): (k: nat)
    ensures k <= |entries|
    ensures forall j :: 0 <= j < k ==> EntryRow(entries[j], defaults).Ok?
    ensures k < |entries| ==> EntryRow(entries[k], defaults).Err?
  {
    if entries == [] || EntryRow(entries[0], defaults).Err? then 0 else 1 + RowPrefix(entries[1..], defaults)
  }

  lemma {:induction false} RowPrefixAt(entries: seq<Entry>, defaults: Option<Record>, i: nat)
    requires i <= |entries|
    requires forall j :: 0 <= j < i ==> EntryRow(entries[j], defaults).Ok?
    requires i < |entries| ==> EntryRow(entries[i], defaults).Err?
    ensures RowPrefix(entries, defaults) == i
  {
    if i > 0 {
      RowPrefixAt(entries[1..], defaults, i - 1);
    }
  }

  /** The JSON records as entries of the loop. */
  function Values(records: seq<Value>): (es: seq<Entry>)
    ensures |es| == |records|
    ensures forall j :: 0 <= j < |records| ==> es[j] == Val(records[j])
  {
    seq(|records|, j requires 0 <= j < |records| => Val(records[j]))
  }

  /** On JSON records the loop stops where the dicts stop, creates their
      merged rows and fails with `UnpackError`. */
  lemma ValuesPrefix(records: seq<Value>, defaults: Option<Record>)
    ensures RowPrefix(Values(records), defaults) == DictPrefix(records)
    ensures var k := DictPrefix(records);
            RowsOf(Values(records)[..k], defaults) == MergedAll(records[..k], defaults)
    ensures DictPrefix(records) < |records| ==>
              EntryRow(Values(records)[DictPrefix(records)], defaults) == Err(UnpackError(defaults))
  {
    var k := DictPrefix(records);
    RowPrefixAt(Values(records), defaults, k);
    ValuesRows(records, defaults, k);
  }

  lemma ValuesRows(records: seq<Value>, defaults: Option<Record>, k: nat)
    requires k <= |records| && forall j :: 0 <= j < k ==> records[j].Dict?
    ensures forall j :: 0 <= j < k ==> EntryRow(Values(records)[j], defaults).Ok?
    ensures RowsOf(Values(records)[..k], defaults) == MergedAll(records[..k], defaults)
  {
    var es := Values(records)[..k];
    var ds := records[..k];
    var l := RowsOf(es, defaults);
    var r := MergedAll(ds, defaults);
    forall j | 0 <= j < k ensures l[j] == r[j] {
      assert es[j] == Val(records[j]);
      assert ds[j] == records[j];
    }
  }

  /** The base import over a list holding only the type `dict`: its first
      entry raises TypeError, so no row is created and only the empty list
      succeeds. */
  lemma BuiltinDictsFail(entries: seq<Entry>, defaults: Option<Record>)
    requires forall j :: 0 <= j < |entries| ==> entries[j] == DictType
    ensures RowPrefix(entries, defaults) == 0
    ensures entries != [] ==> EntryRow(entries[0], defaults) == Err(TypeError)
  {
  }

  lemma AppendAssoc<T>(a: seq<T>, b: seq<T>, c: seq<T>)
    ensures a + b + c == a + (b + c)
  {
  }

  /** `dict_.update(defaults)` when `defaults` is given and not empty. */
  function Merged(d: Record, defaults: Option<Record>): (r: Record)
    ensures defaults.Some? ==> r.Keys == d.Keys + defaults.value.Keys
    ensures defaults.Some? ==> forall k :: k in defaults.value ==> r[k] == defaults.value[k]
    ensures forall k :: k in d && (defaults.None? || k !in defaults.value) ==> k in r && r[k] == d[k]
    ensures defaults.None? ==> r == d
  {
    if defaults.Some? && defaults.value != map[] then d + defaults.value else d
  }

  /** Each record, a dict, with the defaults merged into it. */
  function MergedAll(records: seq<Value>, defaults: Option<Record>): (rs: seq<Record>)
    requires forall j :: 0 <= j < |records| ==> records[j].Dict?
    ensures |rs| == |records|
    ensures forall j :: 0 <= j < |records| ==> rs[j] == Merged(records[j].fields, defaults)
  {
    if records == [] then []
    else MergedAll(records[..|records| - 1], defaults)
         + [Merged(records[|records| - 1].fields, defaults)]
  }

  lemma MergedAllStep(records: seq<Value>, defaults: Option<Record>, i: nat)
    requires i < |records| && forall j :: 0 <= j <= i ==> records[j].Dict?
    ensures MergedAll(records[..i + 1], defaults)
            == MergedAll(records[..i], defaults) + [Merged(records[i].fields, defaults)]
  {
    assert records[..i + 1][..i] == records[..i];
  }

  /** The number of records before the first one that is not a dict. */
  function DictPrefix(records: seq<Value>): (k: nat)
    ensures k <= |records|
    ensures forall j :: 0 <= j < k ==> records[j].Dict?
    ensures k < |records| ==> !records[k].Dict?
  {
    if records == [] || !records[0].Dict? then 0 else 1 + DictPrefix(records[1..])
  }

  lemma {:induction false} DictPrefixAt(records: seq<Value>, i: nat)
    requires i <= |records|
    requires forall j :: 0 <= j < i ==> records[j].Dict?
    requires i < |records| ==> !records[i].Dict?
    ensures DictPrefix(records) == i
  {
    if i > 0 {
      DictPrefixAt(records[1..], i - 1);
    }
  }

  /** The error raised for a record that is not a dict. */
  function UnpackError(defaults: Option<Record>): Error
  {
    if defaults.Some? && defaults.value != map[] then AttributeError else TypeError
  }

  /** The ids `from`, `from + 1`, ..., of `n` rows created in a row. */
  function Ids(from: nat, n: nat): (ids: seq<nat>)
    ensures |ids| == n
    ensures forall j :: 0 <= j < n ==> ids[j] == from + j
  {
    seq(n, j requires 0 <= j < n => from + j)
  }

  /** `if not json_dict: json_dict = json.load(infile)`: the records an
      import reads are the list it is given, or the file's when that list
      is empty (or None). */
  function Source(records: seq<Value>, fileRecords: seq<Value>): seq<Value>
  {
    if records == [] then fileRecords else records
  }
}
