/** The dynamically typed values that the modelled Python code passes around
    as JSON records: `None`, booleans, integers, strings, lists, dicts and
    `datetime` objects. */
module Json {

  type Year = y: int | 1 <= y <= 9999 witness 1970
  type Month = m: int | 1 <= m <= 12 witness 1
  type Day = d: int | 1 <= d <= 31 witness 1
  type Hour = h: int | 0 <= h <= 23
  type Minute = m: int | 0 <= m <= 59
  type Second = s: int | 0 <= s <= 59
  type Micro = u: int | 0 <= u <= 999999

  /** A naive `datetime.datetime`; the time zone is left out. */
  datatype DateTime = DateTime(year: Year, month: Month, day: Day,
                               hour: Hour, minute: Minute, second: Second,
                               micro: Micro)

  datatype Value =
    | Null
    | Bool(b: bool)
    | Int(i: int)
    | Str(s: string)
    | List(items: seq<Value>)
    | Dict(fields: map<string, Value>)
    | Date(date: DateTime)

  /** One JSON object, as the import functions see it. */
  type Record = map<string, Value>

  /** Python's truth value of a JSON value (`bool(v)`). */
  predicate Truthy(v: Value)
  {
    match v
    case Null => false
    case Bool(b) => b
    case Int(i) => i != 0
    case Str(s) => s != ""
    case List(items) => items != []
    case Dict(fields) => fields != map[]
    case Date(_) => true
  }

  /** A list whose every element is a dict, with the dicts it holds. */
  predicate IsListOfDicts(v: Value)
  {
    v.List? && forall k :: 0 <= k < |v.items| ==> v.items[k].Dict?
  }

  function Dicts(v: Value): (rs: seq<Record>)
    requires IsListOfDicts(v)
    ensures |rs| == |v.items|
    ensures forall k :: 0 <= k < |rs| ==> v.items[k] == Dict(rs[k])
  {
    seq(|v.items|, k requires 0 <= k < |v.items| => v.items[k].fields)
  }
}
