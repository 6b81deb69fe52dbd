/**
 * The part of a Newtonsoft.Json `JToken` tree that the completion source reads,
 * and the way it reads it: the integer indexer, `Value<string>()`, enumeration
 * of children and `ToString()`. Every access that throws in .NET yields `Thrown`.
 */
module JsonTree {
  import opened Wrappers

  /**
   * A JSON value: `null`, a primitive (a string, number or boolean, kept as the
   * text .NET converts it to), or an array.
   */
  datatype Json = Null | Str(text: string) | Arr(items: seq<Json>)

  /** `token[i]`: an element of an array; on any other token, or out of range, it throws. */
  function At(j: Json, i: nat): Outcome<Json>
  {
    if j.Arr? && i < |j.items| then Ok(j.items[i]) else Thrown
  }

  /** `token.Value<string>()`: a primitive's text, `null` for JSON null; an array cannot be cast and throws. */
  function StringValue(j: Json): (r: Outcome<Option<string>>)
    ensures r.Ok? <==> !j.Arr?
    ensures r == Ok(None) <==> j.Null?
  {
    match j
    case Null => Ok(None)
    case Str(s) => Ok(Some(s))
    case Arr(_) => Thrown
  }

  /** Enumerating a token: an array yields its elements, a primitive or null yields nothing. */
  function Children(j: Json): seq<Json>
  {
    if j.Arr? then j.items else []
  }

  /** `token.ToString()`: a primitive's text, the empty string for null, JSON text for an array. */
  function Display(j: Json): (r: string)
    ensures j.Str? ==> StringValue(j) == Ok(Some(r))
    ensures j.Null? ==> r == ""
    ensures j.Arr? ==> r == JsonText(j) && r[0] == '[' && r[|r| - 1] == ']'
  {
    match j
    case Null => ""
    case Str(s) => s
    case Arr(xs) => JsonText(j)
  }

  /** JSON text of a token (compact; see README for how this differs from Newtonsoft's layout). */
  function JsonText(j: Json): string
    decreases j, 1
  {
    match j
    case Null => "null"
    case Str(s) => "\"" + s + "\""
    case Arr(xs) => "[" + ItemsText(xs) + "]"
  }

  /** The JSON texts of `xs`, separated by commas. */
  function ItemsText(xs: seq<Json>): string
    decreases xs, 0
  {
    if xs == [] then ""
    else if |xs| == 1 then JsonText(xs[0])
    else JsonText(xs[0]) + "," + ItemsText(xs[1..])
  }

  /** The display texts of a sequence of tokens, in order. */
  function Displays(xs: seq<Json>): (r: seq<string>)
    ensures |r| == |xs|
    ensures forall i :: 0 <= i < |xs| ==> r[i] == Display(xs[i])
  {
    if xs == [] then [] else [Display(xs[0])] + Displays(xs[1..])
  }

  /**
   * The indexer and enumeration agree: `token[i]` succeeds exactly for the
   * indices of the children enumeration yields, and gives that child.
   */
  lemma AtIsChild(j: Json, i: nat)
    ensures At(j, i).Ok? <==> i < |Children(j)|
    ensures At(j, i).Ok? ==> At(j, i).value == Children(j)[i]
  {
  }

  /** `string.Join(sep, parts)`: the parts in order with `sep` between neighbours. */
  function Join(sep: string, parts: seq<string>): string
  {
    if parts == [] then ""
    else if |parts| == 1 then parts[0]
    else parts[0] + sep + Join(sep, parts[1..])
  }

  /**
   * `Join` keeps every part whole and in order: the text of `n + 1` parts is
   * the text of the first `n`, the separator, and the last part; one part
   * is joined to itself.
   */
  lemma {:induction false} JoinSnoc(sep: string, parts: seq<string>, last: string)
    ensures Join(sep, [last]) == last
    ensures parts != [] ==> Join(sep, parts + [last]) == Join(sep, parts) + sep + last
  {
    if |parts| > 1 {
      JoinSnoc(sep, parts[1..], last);
      assert (parts + [last])[1..] == parts[1..] + [last];
    } else if |parts| == 1 {
      assert parts + [last] == [parts[0], last];
    }
  }
}
