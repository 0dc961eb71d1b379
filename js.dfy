/** The JavaScript object model the rule layer works on. Every stored record,
    form state and listing item is a plain object: a map from field names to
    values. A field that is `undefined` is an absent key, so
    `Get(d, k) == None` is `d.k === undefined`. */
module Js {
  import opened Wrappers
  import Text

  /** The field values the records hold: strings, booleans, the store's
      server timestamps (whole seconds) and `null`. */
  datatype Value = Str(s: string) | Bool(b: bool) | Stamp(seconds: int) | Null

  type Doc = map<string, Value>

  /** `d.k` */
  function Get(d: Doc, k: string): Option<Value>
  {
    if k in d then Some(d[k]) else None
  }

  /** JavaScript truthiness of a field value. */
  predicate Truthy(v: Option<Value>)
  {
    match v
    case None => false
    case Some(Str(s)) => s != ""
    case Some(Bool(b)) => b
    case Some(Stamp(_)) => true
    case Some(Null) => false
  }

  /** `a || b` */
  function Or(a: Option<Value>, b: Option<Value>): Option<Value>
  {
    if Truthy(a) then a else b
  }

  /** `v === "lit"` for a string literal. */
  predicate Is(v: Option<Value>, lit: string)
  {
    v == Some(Str(lit))
  }

  /** `{ ...d, [k]: v }`: an `undefined` value leaves the key absent. */
  function Assign(d: Doc, k: string, v: Option<Value>): Doc
  {
    if v.Some? then d[k := v.value] else d - {k}
  }

  /** An object literal `{ k1: v1, ... }`: the fields whose value is
      `undefined` are left out. */
  function Object(fields: map<string, Option<Value>>): (d: Doc)
    ensures forall k :: Get(d, k) == if k in fields then fields[k] else None
  {
    map k | k in fields && fields[k].Some? :: fields[k].value
  }

  /** `{ ...a, ...b }`: the fields of `b` win. */
  function Merge(a: Doc, b: Doc): Doc
  {
    a + b
  }

  /** `delete d[k]` on a copy. */
  function Without(d: Doc, k: string): Doc
  {
    d - {k}
  }

  /** The text `Array.prototype.join` writes for an element: nothing for
      `null` and `undefined`, `Timestamp.toString()` for a timestamp. */
  function JoinText(v: Option<Value>): string
  {
    match v
    case None => ""
    case Some(Null) => ""
    case Some(Str(s)) => s
    case Some(Bool(b)) => if b then "true" else "false"
    case Some(Stamp(t)) => "Timestamp(seconds=" + Text.Dec(t) + ", nanoseconds=0)"
  }

  /** A field read as a string when it holds one. */
  function StrOf(v: Option<Value>): Option<string>
  {
    if v.Some? && v.value.Str? then Some(v.value.s) else None
  }

  /** `new Date(v)` in milliseconds, `None` for an invalid date. How a date
      string is parsed is the platform's and is passed in as `parse`. A
      timestamp object converts through its `valueOf` string, which is not a
      date, and so gives an invalid date. */
  function NewDateMs(v: Option<Value>, parse: string -> Option<int>): Option<int>
  {
    match v
    case None => None
    case Some(Null) => Some(0)
    case Some(Bool(b)) => Some(if b then 1 else 0)
    case Some(Str(t)) => parse(t)
    case Some(Stamp(_)) => None
  }

  /** `v?.seconds ? new Date(v.seconds * 1000) : new Date(v)` in milliseconds:
      the date conversion the reports, the dashboard and the feedback items
      apply to a creation time. */
  function DateMs(v: Option<Value>, parse: string -> Option<int>): Option<int>
  {
    if v.Some? && v.value.Stamp? && v.value.seconds != 0 then Some(v.value.seconds * 1000)
    else NewDateMs(v, parse)
  }

  /** The creation time of a record. */
  function CreatedMs(f: Doc, parse: string -> Option<int>): Option<int>
  {
    DateMs(Get(f, "createdAt"), parse)
  }

  /** The `formatDate(timestamp)` helpers of the dashboard, the feedback
      items and the member cards: `fallback` for a falsy value, otherwise the
      locale text (`locale`, the platform's) of the date the value denotes. */
  function DateLabel(timestamp: Option<Value>, fallback: string, locale: Option<int> -> string,
                     parse: string -> Option<int>): (r: string)
    ensures !Truthy(timestamp) ==> r == fallback
    ensures timestamp.Some? && timestamp.value.Stamp? && timestamp.value.seconds != 0 ==>
              r == locale(Some(timestamp.value.seconds * 1000))
    ensures timestamp.Some? && timestamp.value.Str? && timestamp.value.s != "" ==> r == locale(parse(timestamp.value.s))
  {
    if !Truthy(timestamp) then fallback else locale(DateMs(timestamp, parse))
  }
}
