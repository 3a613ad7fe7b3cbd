/** `model_to_dict` of models/utils.py: turns the `datetime` values of a dict
    into strings so that the dict can be dumped as JSON, descending into
    nested dicts and into the elements of lists. */
module ModelUtils {
  import opened Errors
  import opened Json

  // ---------------------------------------------------------------------
  // The date format "%Y-%m-%dT%H:%M:%SZ"
  // ---------------------------------------------------------------------

  function Pow10(w: nat): (p: nat)
    ensures p >= 1
  {
    if w == 0 then 1 else 10 * Pow10(w - 1)
  }

  function DigitChar(d: nat): (c: char)
    requires d < 10
    ensures '0' <= c <= '9' && c as int - '0' as int == d
  {
    ('0' as int + d) as char
  }

  /** `n` written in decimal with exactly `width` digits, zero-padded. */
  function Digits(n: nat, width: nat): (s: string)
    requires n < Pow10(width)
    ensures |s| == width
    ensures forall k :: 0 <= k < |s| ==> '0' <= s[k] <= '9'
  {
    if width == 0 then "" else Digits(n / 10, width - 1) + [DigitChar(n % 10)]
  }

  /** Reads a string of decimal digits back as a number. */
  function ReadDigits(s: string): nat
  {
    if s == [] then 0
    else
      var c := s[|s| - 1];
      var d := if '0' <= c <= '9' then c as int - '0' as int else 0;
      10 * ReadDigits(s[..|s| - 1]) + d
  }

  lemma {:induction false} ReadDigitsInverts(n: nat, width: nat)
    requires n < Pow10(width)
    ensures ReadDigits(Digits(n, width)) == n
  {
    if width > 0 {
      var s := Digits(n, width);
      assert s[..|s| - 1] == Digits(n / 10, width - 1);
      ReadDigitsInverts(n / 10, width - 1);
    }
  }

  /** `strftime(DATE_FORMAT)`; the microseconds do not appear in it. */
  function FormatDate(d: DateTime): (s: string)
    ensures |s| == 20
  {
    Digits(d.year, 4) + "-" + Digits(d.month, 2) + "-" + Digits(d.day, 2) + "T"
    + Digits(d.hour, 2) + ":" + Digits(d.minute, 2) + ":" + Digits(d.second, 2) + "Z"
  }

  /** The reading of a string in that format back into a date (the inverse
      of FormatDate, as `strptime` with the same format would do it). */
  function ParseDate(s: string): (r: Option<DateTime>)
    ensures r.Some? ==> r.value.micro == 0
  {
    if |s| != 20 || s[4] != '-' || s[7] != '-' || s[10] != 'T' || s[13] != ':'
       || s[16] != ':' || s[19] != 'Z'
    then None
    else
      var y := ReadDigits(s[0..4]);
      var mo := ReadDigits(s[5..7]);
      var d := ReadDigits(s[8..10]);
      var h := ReadDigits(s[11..13]);
      var mi := ReadDigits(s[14..16]);
      var se := ReadDigits(s[17..19]);
      if 1 <= y <= 9999 && 1 <= mo <= 12 && 1 <= d <= 31 && h <= 23 && mi <= 59 && se <= 59
      then Some(DateTime(y, mo, d, h, mi, se, 0))
      else None
  }

  /** Formatting a date and reading it back gives the date without its
      microseconds. */
  lemma DateRoundTrip(d: DateTime)
    ensures ParseDate(FormatDate(d)) == Some(d.(micro := 0))
  {
    var s := FormatDate(d);
    assert s[0..4] == Digits(d.year, 4);
    assert s[5..7] == Digits(d.month, 2);
    assert s[8..10] == Digits(d.day, 2);
    assert s[11..13] == Digits(d.hour, 2);
    assert s[14..16] == Digits(d.minute, 2);
    assert s[17..19] == Digits(d.second, 2);
    assert s[4] == '-' && s[7] == '-' && s[10] == 'T';
    assert s[13] == ':' && s[16] == ':' && s[19] == 'Z';
    ReadDigitsInverts(d.year, 4);
    ReadDigitsInverts(d.month, 2);
    ReadDigitsInverts(d.day, 2);
    ReadDigitsInverts(d.hour, 2);
    ReadDigitsInverts(d.minute, 2);
    ReadDigitsInverts(d.second, 2);
  }

  // ---------------------------------------------------------------------
  // The conversion
  // ---------------------------------------------------------------------

  /** What `model_to_dict(obj)` returns for a value: a dict has each of its
      values converted by ConvertedField; anything else is returned as it
      is. */
  function Converted(v: Value): Value
    decreases v, 0
  {
    match v
    case Dict(m) => Dict(map k | k in m :: ConvertedField(m[k]))
    case _ => v
  }

  /** What the loop body stores back into `dict_[key]`: a date becomes its
      string, a dict is converted, a list has each element passed through
      `model_to_dict` (so a date directly inside a list stays a date). */
  function ConvertedField(x: Value): Value
    decreases x, 1
  {
    match x
    case Date(d) => Str(FormatDate(d))
    case Dict(_) => Converted(x)
    case List(xs) => List(seq(|xs|, k requires 0 <= k < |xs| => Converted(xs[k])))
    case _ => x
  }

  /** A value with no date left where `model_to_dict` would replace one. */
  predicate Serialised(v: Value)
    decreases v, 0
  {
    match v
    case Dict(m) => forall k :: k in m ==> FieldSerialised(m[k])
    case _ => true
  }

  predicate FieldSerialised(x: Value)
    decreases x, 1
  {
    match x
    case Date(_) => false
    case Dict(_) => Serialised(x)
    case List(xs) => forall k :: 0 <= k < |xs| ==> Serialised(xs[k])
    case _ => true
  }

  /** Every value that model_to_dict produces is serialised. */
  lemma {:induction false} ConvertedIsSerialised(v: Value)
    ensures Serialised(Converted(v))
    decreases v, 0
  {
    match v
    case Dict(m) =>
      forall k | k in m ensures FieldSerialised(ConvertedField(m[k])) {
        ConvertedFieldIsSerialised(m[k]);
      }
    case _ =>
  }

  lemma {:induction false} ConvertedFieldIsSerialised(x: Value)
    ensures FieldSerialised(ConvertedField(x))
    decreases x, 1
  {
    match x
    case Date(_) =>
    case Dict(_) => ConvertedIsSerialised(x);
    case List(xs) =>
      forall k | 0 <= k < |xs| ensures Serialised(Converted(xs[k])) {
        ConvertedIsSerialised(xs[k]);
      }
    case _ =>
  }

  /** model_to_dict leaves a serialised value as it is: scalars, strings and
      already converted dicts are not touched. */
  lemma {:induction false} SerialisedIsFixpoint(v: Value)
    requires Serialised(v)
    ensures Converted(v) == v
    decreases v, 0
  {
    match v
    case Dict(m) =>
      forall k | k in m ensures ConvertedField(m[k]) == m[k] {
        FieldFixpoint(m[k]);
      }
      assert (map k | k in m :: ConvertedField(m[k])) == m;
    case _ =>
  }

  lemma {:induction false} FieldFixpoint(x: Value)
    requires FieldSerialised(x)
    ensures ConvertedField(x) == x
    decreases x, 1
  {
    match x
    case Dict(_) => SerialisedIsFixpoint(x);
    case List(xs) =>
      forall k | 0 <= k < |xs| ensures Converted(xs[k]) == xs[k] {
        SerialisedIsFixpoint(xs[k]);
      }
      assert seq(|xs|, k requires 0 <= k < |xs| => Converted(xs[k])) == xs;
    case _ =>
  }

  /** Applying model_to_dict twice is applying it once. */
  lemma ConvertedIdempotent(v: Value)
    ensures Converted(Converted(v)) == Converted(v)
  {
    ConvertedIsSerialised(v);
    SerialisedIsFixpoint(Converted(v));
  }

  /** model_to_dict(obj) for a dict or any other value. The dict is rewritten
      key by key, as the source's `for key in dict_.keys()` loop does. */
  method ModelToDict(obj: Value) returns (r: Value)
    ensures r == Converted(obj)
    ensures !obj.Dict? ==> r == obj
    ensures obj.Dict? ==> r.Dict? && r.fields.Keys == obj.fields.Keys
    decreases obj
  {
    if !obj.Dict? {
      return obj;
    }
    var m := obj.fields;
    var out := m;
    var todo := m.Keys;
    while todo != {}
      invariant todo <= m.Keys
      invariant out.Keys == m.Keys
      invariant forall k :: k in m && k !in todo ==> out[k] == ConvertedField(m[k])
      invariant forall k :: k in todo ==> out[k] == m[k]
      decreases todo
    {
      var key :| key in todo;
      var x := out[key];
      var y := x;
      match x {
        case Date(d) =>
          y := Str(FormatDate(d));
        case Dict(_) =>
          y := ModelToDict(x);
        case List(_) =>
          var ys := ListToDicts(x);
          y := List(ys);
        case _ =>
      }
      assert y == ConvertedField(m[key]);
      out := out[key := y];
      todo := todo - {key};
    }
    assert out == (map k | k in m :: ConvertedField(m[k]));
    r := Dict(out);
  }

  /** `[model_to_dict(i) for i in v]` for the list value `x`. */
  method ListToDicts(x: Value) returns (ys: seq<Value>)
    requires x.List?
    ensures ys == seq(|x.items|, k requires 0 <= k < |x.items| => Converted(x.items[k]))
    decreases x
  {
    var xs := x.items;
    ys := [];
    var i := 0;
    while i < |xs|
      invariant 0 <= i <= |xs|
      invariant |ys| == i
      invariant forall j :: 0 <= j < i ==> ys[j] == Converted(xs[j])
    {
      var y := ModelToDict(xs[i]);
      ys := ys + [y];
      i := i + 1;
    }
  }
}
