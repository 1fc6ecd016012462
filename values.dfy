/** Values shared by every part of the admin panel model: optional fields,
    the JSON values that request bodies carry, and the JavaScript truthiness
    rules (`x || fallback`, `${x}`) the panel relies on. */
module Values {

  /** The colour names of the component library's chips. */
  datatype ChipColor = Default | Primary | Info | Success | Warning | Error

  /** A field that may be missing (`undefined` or `null` in the panel). */
  datatype Option<+T> = None | Some(value: T)

  /** A raw date field: missing (falsy), present but not a date `new Date`
      can parse, or a parsed instant. The panel tests the raw field's
      truthiness, so an unparsable string still counts as set. */
  datatype DateField = Unset | Unparsable | At(instant: int)

  /** A result that may carry an error, like a rejected promise. */
  datatype Result<+T, +E> = Ok(value: T) | Err(error: E)

  /** The JSON values that the panel puts into request bodies. */
  datatype Json = JStr(s: string) | JInt(i: int) | JBool(b: bool) | JStrs(items: seq<string>)

  /** A JSON object whose keys are all defined: `JSON.stringify` drops keys
      whose value is `undefined`, so a missing key stands for one. */
  type Fields = map<string, Json>

  /** A string field is truthy when it is present and non-empty. */
  predicate Truthy(o: Option<string>)
  {
    o.Some? && o.value != ""
  }

  /** A number field is truthy when it is present and non-zero. */
  predicate TruthyInt(o: Option<int>)
  {
    o.Some? && o.value != 0
  }

  /** `o || fallback` for a string field. */
  function Or(o: Option<string>, fallback: string): (r: string)
    ensures Truthy(o) ==> r == o.value
    ensures !Truthy(o) ==> r == fallback
    ensures r == "" ==> fallback == ""
  {
    if Truthy(o) then o.value else fallback
  }

  /** `o || fallback` for a number field. */
  function OrInt(o: Option<int>, fallback: int): (r: int)
    ensures TruthyInt(o) ==> r == o.value
    ensures !TruthyInt(o) ==> r == fallback
  {
    if TruthyInt(o) then o.value else fallback
  }

  /** `${o}` in a template literal: a missing value prints as "undefined". */
  function Template(o: Option<string>): (r: string)
    ensures o.Some? ==> r == o.value
    ensures o.None? ==> r == "undefined"
  {
    if o.Some? then o.value else "undefined"
  }

  /** The fields of `data` named in `keys`, as `{k: data.k, ...}` serialises. */
  function Pick(data: Fields, keys: set<string>): (r: Fields)
    ensures r.Keys == data.Keys * keys
    ensures forall k :: k in r ==> r[k] == data[k]
  {
    map k | k in keys && k in data :: data[k]
  }

  /** A present boolean is one of the two. */
  lemma BoolCases(o: Option<bool>)
    ensures o.Some? <==> o == Some(true) || o == Some(false)
  {
    if o.Some? {
      if o.value {
        assert o == Some(true);
      } else {
        assert o == Some(false);
      }
    }
  }
}
