/** Decoded JSON values: the input the question-set schema is applied to. */
module JsonValues {
  import opened Wrappers

  /** A JSON value after decoding. An object is a map from keys to values;
      numbers are kept as a decimal mantissa and exponent (no schema field
      of the question set accepts a number, so their arithmetic never matters). */
  datatype Json =
    | JNull
    | JBool(truth: bool)
    | JNumber(mantissa: int, exponent: int)
    | JString(str: string)
    | JArray(items: seq<Json>)
    | JObject(fields: map<string, Json>)

  /** The JSON array whose elements are the given strings, in order. */
  function StringArray(ss: seq<string>): (items: seq<Json>)
    ensures |items| == |ss|
    ensures forall i :: 0 <= i < |ss| ==> items[i] == JString(ss[i])
  {
    seq(|ss|, i requires 0 <= i < |ss| => JString(ss[i]))
  }

  /** The strings held by an array whose elements are all JSON strings;
      None as soon as one element is anything else. */
  function AsStrings(items: seq<Json>): (r: Option<seq<string>>)
    ensures r.Some? <==> forall i :: 0 <= i < |items| ==> items[i].JString?
    ensures r.Some? ==> |r.value| == |items|
    ensures r.Some? ==> forall i :: 0 <= i < |items| ==> r.value[i] == items[i].str
  {
    if |items| == 0 then Some([])
    else match items[0]
      case JString(s) =>
        (match AsStrings(items[1..])
         case Some(rest) => Some([s] + rest)
         case None => None)
      case _ => None
  }

  /** Reading back an encoded string array gives the strings that were encoded. */
  lemma AsStringsOfStringArray(ss: seq<string>)
    ensures AsStrings(StringArray(ss)) == Some(ss)
  {
    var r := AsStrings(StringArray(ss));
    assert r.Some?;
    assert r.value == ss;
  }

  /** An array of strings is the encoding of the strings it holds. */
  lemma StringArrayOfAsStrings(items: seq<Json>)
    requires AsStrings(items).Some?
    ensures StringArray(AsStrings(items).value) == items
  {
  }
}
