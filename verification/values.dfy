/** The Python values that flow through the gateway: keyword arguments,
    decoded JSON/TOML documents, provenance records and listing rows. */
module Values {
  import opened Wrappers
  import opened Strings
  import opened OrderedMaps

  datatype Value =
    | Null
    | Bool(b: bool)
    | Int(i: int)
    | Str(s: string)
    | List(items: seq<Value>)
    | Dict(entries: OMap<string, Value>)

  /** Python truthiness (`if v:`). */
  predicate Truthy(v: Value) {
    match v
    case Null => false
    case Bool(b) => b
    case Int(i) => i != 0
    case Str(s) => s != ""
    case List(items) => items != []
    case Dict(entries) => entries != []
  }

  /** `isinstance(v, int)`; `bool` is a subclass of `int` in Python. */
  predicate IsInstanceInt(v: Value) {
    v.Int? || v.Bool?
  }

  /** `type(v).__name__`, as it appears in Python's error messages. */
  function TypeName(v: Value): string {
    match v
    case Null => "NoneType"
    case Bool(_) => "bool"
    case Int(_) => "int"
    case Str(_) => "str"
    case List(_) => "list"
    case Dict(_) => "dict"
  }

  /** `d.get(k)`, which is also `kwargs.get(k, None)`. */
  function Get(m: OMap<string, Value>, k: string): (v: Value)
    ensures k !in Keys(m) ==> v == Null
    ensures k in Keys(m) ==> Lookup(m, k) == Some(v)
  {
    match Lookup(m, k)
    case Some(x) => x
    case None => Null
  }

  /** `d.get(k, default)`: the default is used only when the key is absent,
      not when it is present with the value `None`. */
  function GetOr(m: OMap<string, Value>, k: string, default: Value): (v: Value)
    ensures k !in Keys(m) ==> v == default
    ensures k in Keys(m) ==> Lookup(m, k) == Some(v)
  {
    match Lookup(m, k)
    case Some(x) => x
    case None => default
  }

  /** `repr(s)` of a string. Escaping of quotes, backslashes and unprintable
      characters is not modelled. */
  function QuoteString(s: string): string {
    "'" + s + "'"
  }

  /** `repr(v)`. */
  function Repr(v: Value): string
    decreases v, 1
  {
    match v
    case Null => "None"
    case Bool(b) => if b then "True" else "False"
    case Int(i) => IntToString(i)
    case Str(s) => QuoteString(s)
    case List(items) => "[" + ReprItems(v, 0) + "]"
    case Dict(entries) => "{" + ReprEntries(v, 0) + "}"
  }

  function ReprItems(v: Value, i: nat): string
    requires v.List? && i <= |v.items|
    decreases v, 0, |v.items| - i
  {
    if i == |v.items| then ""
    else (if i == 0 then "" else ", ") + Repr(v.items[i]) + ReprItems(v, i + 1)
  }

  function ReprEntries(v: Value, i: nat): string
    requires v.Dict? && i <= |v.entries|
    decreases v, 0, |v.entries| - i
  {
    if i == |v.entries| then ""
    else
      var e := v.entries[i];
      assert e in v.entries;
      (if i == 0 then "" else ", ") + QuoteString(e.0) + ": " + Repr(e.1) + ReprEntries(v, i + 1)
  }

  /** `str(v)`: a string is itself, anything else is its `repr`. */
  function ToStr(v: Value): string {
    if v.Str? then v.s else Repr(v)
  }

  /** A list of strings as Python values. */
  function StrList(ss: seq<string>): (v: Value)
    ensures v.List? && |v.items| == |ss|
    ensures forall i :: 0 <= i < |ss| ==> v.items[i] == Str(ss[i])
  {
    List(seq(|ss|, i requires 0 <= i < |ss| => Str(ss[i])))
  }

  /** The items `for x in v` visits: a list's items, a string's characters,
      a dict's keys; `None`, a bool or an int is not iterable. */
  function Iterate(v: Value): (r: Option<seq<Value>>)
    ensures r.None? <==> v.Null? || v.Bool? || v.Int?
    ensures v.List? ==> r == Some(v.items)
    ensures r.Some? ==> |r.value| == (if v.List? then |v.items| else if v.Str? then |v.s| else |v.entries|)
  {
    match v
    case List(items) => Some(items)
    case Str(s) => Some(seq(|s|, i requires 0 <= i < |s| => Str([s[i]])))
    case Dict(entries) => Some(seq(|entries|, i requires 0 <= i < |entries| => Str(entries[i].0)))
    case _ => None
  }
}
