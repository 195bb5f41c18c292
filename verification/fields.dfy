/** Field-level rules of the schema library as the question models use them:
    a `str` field and a `List[str]` field, each either required or with a
    default, the list optionally bounded by `min_items` / `max_items`.
    A key that is present is always validated, even when the field has a
    default; a JSON `null` or a number is never accepted as a string. */
module Fields {
  import opened Wrappers
  import opened JsonValues

  /** Length bounds of a list field. */
  datatype Bounds = Bounds(minItems: nat, maxItems: Option<nat>)

  /** A list field without `min_items` / `max_items`. */
  const Unbounded: Bounds := Bounds(0, None)

  /** `min_items=n, max_items=n`. */
  function Exactly(n: nat): Bounds {
    Bounds(n, Some(n))
  }

  predicate InBounds(length: nat, b: Bounds) {
    b.minItems <= length && (b.maxItems.Some? ==> length <= b.maxItems.value)
  }

  /** A `str` field: the supplied string, the default when the key is
      absent, and a failure for a missing required key or a non-string. */
  function StrField(obj: map<string, Json>, name: string, default: Option<string>): (r: Result<string>)
    ensures r.Success? <==> (name in obj && obj[name].JString?) || (name !in obj && default.Some?)
    ensures r.Success? && name in obj ==> obj[name] == JString(r.value)
    ensures r.Success? && name !in obj ==> r.value == default.value
  {
    if name !in obj then
      match default
      case Some(d) => Success(d)
      case None => Failure
    else
      match obj[name]
      case JString(s) => Success(s)
      case _ => Failure
  }

  /** A `List[str]` field: the supplied array when every element is a string
      and its length is within the bounds, the default when the key is absent.
      The default itself is not checked against the bounds. */
  function StrListField(obj: map<string, Json>, name: string, bounds: Bounds, default: Option<seq<string>>): (r: Result<seq<string>>)
    ensures r.Success? <==>
      || (name in obj && obj[name].JArray? && AsStrings(obj[name].items).Some?
          && InBounds(|obj[name].items|, bounds))
      || (name !in obj && default.Some?)
    ensures r.Success? && name in obj ==> obj[name] == JArray(StringArray(r.value))
    ensures r.Success? && name !in obj ==> r.value == default.value
  {
    if name !in obj then
      match default
      case Some(d) => Success(d)
      case None => Failure
    else
      match obj[name]
      case JArray(items) =>
        (match AsStrings(items)
         case Some(ss) =>
           StringArrayOfAsStrings(items);
           if InBounds(|ss|, bounds) then Success(ss) else Failure
         case None => Failure)
      case _ => Failure
  }
}
