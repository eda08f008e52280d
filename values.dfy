/** Value-level building blocks shared by the whole model: TypeScript's
    optional and nullable fields, JSON values with JavaScript truthiness,
    the JSON codec the engine calls, and a few string helpers. */
module Values {

  /** An optional field (`x?: T`): absent (`undefined`) or present. */
  datatype Option<+T> = None | Some(value: T) {
    function GetOr(default: T): T {
      if Some? then value else default
    }
  }

  /** A field typed `T | null` that may also be missing: `undefined`, `null`
      or a value. The engine treats `undefined` and `null` differently in a
      few places (`!== undefined`, `JSON.stringify`), so both are kept. */
  datatype Nullable<+T> = Absent | Null | Present(value: T)

  /** A JSON value. Numbers are integers: the engine never does arithmetic
      on the numbers inside tool arguments, it only moves them around. */
  datatype Json =
    | JNull
    | JBool(b: bool)
    | JNumber(n: int)
    | JString(s: string)
    | JArray(items: seq<Json>)
    | JObject(fields: map<string, Json>)

  /** JavaScript truthiness of a JSON value: `null`, `false`, `0` and `""`
      are falsy; every array and object is truthy. */
  predicate Truthy(j: Json) {
    match j
    case JNull => false
    case JBool(b) => b
    case JNumber(n) => n != 0
    case JString(s) => s != ""
    case JArray(_) => true
    case JObject(_) => true
  }

  /** Truthiness of an optional field: `undefined` is falsy. */
  predicate TruthyField(f: Option<Json>) {
    f.Some? && Truthy(f.value)
  }

  /** Property access `o[key]` on an object; `undefined` when missing. */
  function Field(fields: map<string, Json>, key: string): (r: Option<Json>)
    ensures r.Some? <==> key in fields
    ensures r.Some? ==> r.value == fields[key]
  {
    if key in fields then Some(fields[key]) else None
  }

  /** `JSON.parse` as a partial function (None where it would throw) and
      `JSON.stringify`, which cannot fail on a finite acyclic JSON tree.
      Both are external to the engine: the model takes them as given. */
  datatype JsonCodec = JsonCodec(parse: string -> Option<Json>, stringify: Json -> string)

  /** What RFC 8259 promises of a conforming pair: parsing a serialised
      value gives the value back. Only lemmas that need it require it. */
  ghost predicate RoundTrips(codec: JsonCodec) {
    forall j: Json :: codec.parse(codec.stringify(j)) == Some(j)
  }

  /** `ss.join(sep)`. */
  function Join(ss: seq<string>, sep: string): (r: string)
    ensures |ss| == 0 ==> r == ""
    ensures |ss| == 1 ==> r == ss[0]
  {
    if |ss| == 0 then ""
    else if |ss| == 1 then ss[0]
    else ss[0] + sep + Join(ss[1..], sep)
  }

  /** Concatenation of all strings of `ss`, in order. */
  function Concat(ss: seq<string>): string
    decreases |ss|
  {
    if |ss| == 0 then "" else Concat(ss[..|ss| - 1]) + ss[|ss| - 1]
  }

  /** The joined string is empty exactly when there is nothing to join, or
      one empty string, or only empty strings joined by an empty separator;
      with a non-empty separator, exactly the first two cases. */
  lemma {:induction false} JoinEmpty(ss: seq<string>, sep: string)
    requires sep != ""
    ensures Join(ss, sep) == "" <==> |ss| == 0 || (|ss| == 1 && ss[0] == "")
  {
    if |ss| >= 2 {
      assert |ss[0] + sep + Join(ss[1..], sep)| >= |sep| > 0;
    }
  }

  /** ASCII lower-casing, as `String.prototype.toLowerCase` does on the
      ASCII range. */
  function ToLower(s: string): (r: string)
    ensures |r| == |s|
    ensures forall i :: 0 <= i < |s| && !('A' <= s[i] <= 'Z') ==> r[i] == s[i]
  {
    if |s| == 0 then ""
    else
      var c := if 'A' <= s[0] <= 'Z' then (s[0] as int + 32) as char else s[0];
      [c] + ToLower(s[1..])
  }

  /** The decimal digits of a natural number, as a template literal
      renders it. */
  function DecimalString(n: nat): (r: string)
    ensures |r| >= 1 && forall i :: 0 <= i < |r| ==> '0' <= r[i] <= '9'
  {
    var d := [(('0' as int) + n % 10) as char];
    if n < 10 then d else DecimalString(n / 10) + d
  }
}
