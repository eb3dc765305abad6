/** JavaScript values as they travel through the exporter: the JSON values
    (objects keep their keys in insertion order; JavaScript puts integer-like
    keys first, which the records handled here do not have)
    plus `undefined`, which JavaScript produces for a missing property. Numbers
    are integers here. The module gives the operators the source leans on:
    truthiness, `||`, `??`, property access, `String(v)`, `Number(v)` and
    `JSON.stringify`. */
module Json {
  import opened Wrappers
  import opened Text

  datatype Value =
    | Undefined
    | Null
    | Bool(b: bool)
    | Num(n: int)
    | Str(s: string)
    | Arr(items: seq<Value>)
    | Obj(keys: seq<string>, vals: map<string, Value>)

  /** The values `if (v)` accepts: everything except undefined, null, false, 0 and "". */
  predicate Truthy(v: Value) {
    match v
    case Undefined => false
    case Null => false
    case Bool(b) => b
    case Num(n) => n != 0
    case Str(s) => s != ""
    case Arr(_) => true
    case Obj(_, _) => true
  }

  /** The values `??` and `?.` treat as absent. */
  predicate Nullish(v: Value) {
    v.Undefined? || v.Null?
  }

  /** `a || b`. */
  function Or(a: Value, b: Value): Value {
    if Truthy(a) then a else b
  }

  /** `a ?? b`. */
  function Coalesce(a: Value, b: Value): Value {
    if Nullish(a) then b else a
  }

  /** `||` falls back on every falsy value, `??` only on null and undefined:
      the two agree exactly when the left operand is not one of false, 0 and "". */
  lemma OrVersusCoalesce(a: Value, b: Value)
    ensures Or(a, b) == Coalesce(a, b) <==> (Truthy(a) || Nullish(a) || a == b)
  {
  }

  /** `o.k` on a value that is not null or undefined: an object's own property,
      or undefined. */
  function Get(o: Value, k: string): Value {
    if o.Obj? && k in o.vals then o.vals[k] else Undefined
  }

  /** `o?.k`. */
  function OptGet(o: Value, k: string): Value {
    if Nullish(o) then Undefined else Get(o, k)
  }

  /** `o[i]` for a non-negative index. */
  function Index(o: Value, i: nat): Value {
    match o
    case Arr(items) => if i < |items| then items[i] else Undefined
    case Str(s) => if i < |s| then Str([s[i]]) else Undefined
    case Obj(_, _) => Get(o, NatToString(i))
    case _ => Undefined
  }

  /** The object `{k: v, ...x}`: `k` first, then the own keys of `x`, whose
      values win; spreading anything but an object adds nothing. */
  function SpreadAfter(k: string, v: Value, x: Value): (r: Value)
    ensures r.Obj? && |r.keys| >= 1 && r.keys[0] == k
  {
    match x
    case Obj(keys, vals) => Obj([k] + Without(keys, k), map[k := v] + vals)
    case _ => Obj([k], map[k := v])
  }

  /** In `{k: v, ...x}` the property `k` is the one of `x` when `x` has it and
      `v` otherwise; every other property reads as it does in `x`. */
  lemma SpreadAfterReads(k: string, v: Value, x: Value, j: string)
    ensures Get(SpreadAfter(k, v, x), k) == (if x.Obj? && k in x.vals then x.vals[k] else v)
    ensures j != k ==> Get(SpreadAfter(k, v, x), j) == Get(x, j)
  {
  }

  function Without(keys: seq<string>, k: string): (r: seq<string>)
    ensures k !in r
    ensures forall j :: j in keys && j != k ==> j in r
  {
    if keys == [] then []
    else (if keys[0] == k then [] else [keys[0]]) + Without(keys[1..], k)
  }

  /** `String(v)`. */
  function JsString(v: Value): string {
    match v
    case Undefined => "undefined"
    case Null => "null"
    case Bool(b) => if b then "true" else "false"
    case Num(n) => IntToString(n)
    case Str(s) => s
    case Arr(items) => Join(seq(|items|, i requires 0 <= i < |items| =>
                              if Nullish(items[i]) then "" else JsString(items[i])), ',')
    case Obj(_, _) => "[object Object]"
  }

  /** `Number(v)`; None stands for NaN. */
  function ToNumber(v: Value): Option<int> {
    match v
    case Undefined => None
    case Null => Some(0)
    case Bool(b) => Some(if b then 1 else 0)
    case Num(n) => Some(n)
    case Str(s) => NumberFromString(s)
    case Arr(_) => NumberFromString(JsString(v))
    case Obj(_, _) => None
  }

  // ---- JSON.stringify -------------------------------------------------------

  const HexDigits := "0123456789abcdef"

  /** One character of a JSON string literal, escaped as JSON.stringify does. */
  function EscapeChar(c: char): string {
    if c == '"' then "\\\""
    else if c == '\\' then "\\\\"
    else if c == '\U{0008}' then "\\b"
    else if c == '\U{000C}' then "\\f"
    else if c == '\n' then "\\n"
    else if c == '\r' then "\\r"
    else if c == '\t' then "\\t"
    else if c < ' ' then "\\u00" + [HexDigits[c as int / 16], HexDigits[c as int % 16]]
    else [c]
  }

  function Escape(s: string): string {
    if s == [] then "" else EscapeChar(s[0]) + Escape(s[1..])
  }

  function Quote(s: string): string {
    "\"" + Escape(s) + "\""
  }

  /** The JSON text of a value nested in an array or standing on its own;
      `undefined` inside an array is written `null`, and object members whose
      value is undefined are left out. */
  function Ser(v: Value): string {
    match v
    case Undefined => "null"
    case Null => "null"
    case Bool(b) => if b then "true" else "false"
    case Num(n) => IntToString(n)
    case Str(s) => Quote(s)
    case Arr(items) => "[" + Join(seq(|items|, i requires 0 <= i < |items| => Ser(items[i])), ',') + "]"
    case Obj(keys, vals) => "{" + Join(Members(keys, vals, v), ',') + "}"
  }

  function Members(keys: seq<string>, vals: map<string, Value>, ghost parent: Value): seq<string>
    requires forall k :: k in vals ==> vals[k] < parent
    decreases parent, 0, |keys|
  {
    if keys == [] then []
    else
      var k := keys[0];
      (if k in vals && vals[k] != Undefined then [Quote(k) + ":" + Ser(vals[k])] else [])
      + Members(keys[1..], vals, parent)
  }

  /** `JSON.stringify(v)`: no text at all for undefined. */
  function Stringify(v: Value): Option<string> {
    if v.Undefined? then None else Some(Ser(v))
  }

  /** No control character (below U+0020) occurs in the text. */
  predicate Printable(s: string) {
    forall i :: 0 <= i < |s| ==> s[i] >= ' '
  }

  lemma EscapeCharPrintable(c: char)
    ensures Printable(EscapeChar(c)) && |EscapeChar(c)| >= 1
  {
  }

  lemma {:induction false} EscapePrintable(s: string)
    ensures Printable(Escape(s))
    decreases |s|
  {
    if s != [] {
      EscapeCharPrintable(s[0]);
      EscapePrintable(s[1..]);
    }
  }

  lemma {:induction false} JoinPrintable(parts: seq<string>, sep: char)
    requires sep >= ' '
    requires forall i :: 0 <= i < |parts| ==> Printable(parts[i])
    ensures Printable(Join(parts, sep))
    decreases |parts|
  {
    if |parts| > 1 {
      JoinPrintable(parts[1..], sep);
    }
  }

  lemma DigitsPrintable(n: int)
    ensures Printable(IntToString(n))
  {
  }

  /** JSON.stringify never writes a raw control character, newline included:
      every JSON text fits on one line. */
  lemma {:induction false} SerPrintable(v: Value)
    ensures Printable(Ser(v))
    decreases v, 1
  {
    match v
    case Num(n) => DigitsPrintable(n);
    case Str(s) => EscapePrintable(s);
    case Arr(items) =>
      var parts := seq(|items|, i requires 0 <= i < |items| => Ser(items[i]));
      forall i | 0 <= i < |items|
        ensures Printable(parts[i])
      {
        SerPrintable(items[i]);
      }
      JoinPrintable(parts, ',');
    case Obj(keys, vals) =>
      MembersPrintable(keys, vals, v);
      JoinPrintable(Members(keys, vals, v), ',');
    case _ =>
  }

  lemma {:induction false} MembersPrintable(keys: seq<string>, vals: map<string, Value>, parent: Value)
    requires forall k :: k in vals ==> vals[k] < parent
    ensures forall i :: 0 <= i < |Members(keys, vals, parent)| ==> Printable(Members(keys, vals, parent)[i])
    decreases parent, 0, |keys|
  {
    if keys != [] {
      var k := keys[0];
      if k in vals && vals[k] != Undefined {
        SerPrintable(vals[k]);
        EscapePrintable(k);
      }
      MembersPrintable(keys[1..], vals, parent);
    }
  }

  /** A JSON text is never blank: it starts with a character that is not white space. */
  lemma SerStartsVisibly(v: Value)
    ensures |Ser(v)| >= 1 && !IsSpace(Ser(v)[0])
  {
    match v
    case Num(n) => DigitIsNotSpace(IntToString(n)[0]);
    case _ =>
  }
}
