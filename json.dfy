/** JSON values as JavaScript sees them once parsed, with the few operators of the language the adapter relies on. */
module Json {
  import opened Wrappers

  /** A parsed JSON document. Objects are unordered here; numbers are integers. */
  datatype Json =
    | JNull
    | JBool(b: bool)
    | JNum(n: int)
    | JStr(s: string)
    | JArr(items: seq<Json>)
    | JObj(fields: map<string, Json>)

  /** JavaScript truthiness: `null`, `false`, `0` and `""` are falsy, everything else is truthy. */
  predicate Truthy(j: Json)
  {
    match j
    case JNull => false
    case JBool(b) => b
    case JNum(n) => n != 0
    case JStr(s) => s != ""
    case JArr(_) => true
    case JObj(_) => true
  }

  /**
   * `j.key` on a non-null value, for a key that is neither an array index nor `length`:
   * only an object can own such a member; on anything else the access is `undefined`.
   */
  function Member(j: Json, key: string): Option<Json>
  {
    if j.JObj? && key in j.fields then Some(j.fields[key]) else None
  }

  /** `j[0]` on a non-null value: an array's first element, an object's member "0", a string's first character. */
  function Index0(j: Json): Option<Json>
  {
    match j
    case JArr(items) => if |items| > 0 then Some(items[0]) else None
    case JObj(m) => if "0" in m then Some(m["0"]) else None
    case JStr(s) => if |s| > 0 then Some(JStr([s[0]])) else None
    case _ => None
  }

  /** `o?.key`: `undefined` when `o` is `undefined` or `null`. */
  function OptMember(o: Option<Json>, key: string): Option<Json>
  {
    match o
    case None => None
    case Some(j) => if j.JNull? then None else Member(j, key)
  }

  /** `o?.[0]`: `undefined` when `o` is `undefined` or `null`. */
  function OptIndex0(o: Option<Json>): Option<Json>
  {
    match o
    case None => None
    case Some(j) => if j.JNull? then None else Index0(j)
  }

  /** `j.key = v` on an object; values of any other kind are left as they are. */
  function SetMember(j: Json, key: string, v: Json): (r: Json)
    ensures j.JObj? ==> Member(r, key) == Some(v)
  {
    if j.JObj? then JObj(j.fields[key := v]) else j
  }

  /** `j[0] = v` on an array or an object that already has an element 0. */
  function SetIndex0(j: Json, v: Json): (r: Json)
    requires Index0(j).Some?
    requires j.JArr? || j.JObj?
    ensures Index0(r) == Some(v)
  {
    match j
    case JArr(items) => JArr([v] + items[1..])
    case JObj(m) => JObj(m["0" := v])
  }

  /** The decimal digits of a natural number, as `Number.prototype.toString` writes them. */
  function NatToDecimal(n: nat): (s: string)
    ensures |s| > 0
    decreases n
  {
    var d := "0123456789"[n % 10];
    if n < 10 then [d] else NatToDecimal(n / 10) + [d]
  }

  /**
   * Whether converting `j` to a string meets an object that owns a `toString` member. A parsed
   * object's own `toString` is never callable, and its `valueOf` (own or inherited) never gives
   * a primitive, so the conversion throws a TypeError there, at the top or inside an array.
   */
  predicate HasOwnToString(j: Json)
    decreases j
  {
    match j
    case JObj(m) => "toString" in m
    case JArr(items) => exists i :: 0 <= i < |items| && HasOwnToString(items[i])
    case _ => false
  }

  /**
   * The JavaScript ToString conversion that `+` applies to a non-string operand: an array goes
   * through `join(",")` (a null element gives the empty string), an object without an own
   * `toString` through `Object.prototype.toString`; an object with one throws.
   */
  function ToJsString(j: Json): (r: Completion<string>)
    ensures r.Throw? <==> HasOwnToString(j)
    ensures j.JStr? ==> r == Normal(j.s)
    ensures j.JObj? && r.Normal? ==> r.value == "[object Object]"
    decreases j
  {
    match j
    case JNull => Normal("null")
    case JBool(b) => Normal(if b then "true" else "false")
    case JNum(n) => Normal(if n < 0 then "-" + NatToDecimal(-n) else NatToDecimal(n))
    case JStr(s) => Normal(s)
    case JArr(items) =>
      var parts := seq(|items|, i requires 0 <= i < |items| =>
        if items[i].JNull? then Normal("") else ToJsString(items[i]));
      assert forall i :: 0 <= i < |items| ==> (parts[i].Throw? <==> HasOwnToString(items[i])) by {
        forall i | 0 <= i < |items| ensures parts[i].Throw? <==> HasOwnToString(items[i]) {
          assert parts[i] == if items[i].JNull? then Normal("") else ToJsString(items[i]);
        }
      }
      if exists i :: 0 <= i < |parts| && parts[i].Throw? then Throw
      else Normal(JoinWithCommas(seq(|parts|, i requires 0 <= i < |parts| => parts[i].value)))
    case JObj(m) => if "toString" in m then Throw else Normal("[object Object]")
  }

  /** `Array.prototype.join(",")` on already converted elements. */
  function JoinWithCommas(parts: seq<string>): string
  {
    if |parts| == 0 then ""
    else if |parts| == 1 then parts[0]
    else parts[0] + "," + JoinWithCommas(parts[1..])
  }
}
