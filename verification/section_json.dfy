/** How a section generator turns the completion service's reply into the
    section value: the empty-content default, the parse, and for the array
    sections the bare-array / wrapper-key / `data` / `[]` fallback. */
module SectionJson {
  import opened Wrappers

  /** A parsed JSON value. Numbers are integers in this model; objects map each
      key to its value (a repeated key keeps its last value, as `JSON.parse` does). */
  datatype Json =
    | JNull
    | JBool(b: bool)
    | JNumber(n: int)
    | JString(s: string)
    | JArray(items: seq<Json>)
    | JObject(fields: map<string, Json>)

  /** JavaScript truthiness: `null`, `false`, `0` and `""` are falsy; every
      array and object, the empty ones included, is truthy. */
  predicate Truthy(v: Json) {
    match v
    case JNull => false
    case JBool(b) => b
    case JNumber(n) => n != 0
    case JString(s) => s != ""
    case JArray(_) => true
    case JObject(_) => true
  }

  /** The message of the TypeError the V8 engine throws when property `key`
      of `null` is read. */
  function NullPropertyError(key: string): string {
    "Cannot read properties of null (reading '" + key + "')"
  }

  /** `v.key`: the property's value, `None` for `undefined`, an error for `null`.
      Primitive values have none of the keys looked up here. */
  function Property(v: Json, key: string): (r: Result<Option<Json>>)
    ensures r.Err? <==> v.JNull?
    ensures r.Err? ==> r.error == NullPropertyError(key)
    ensures r.Ok? && r.value.Some? ==> v.JObject? && key in v.fields && r.value.value == v.fields[key]
    ensures v.JObject? && key in v.fields ==> r == Ok(Some(v.fields[key]))
  {
    match v
    case JNull => Err(NullPropertyError(key))
    case JObject(m) => if key in m then Ok(Some(m[key])) else Ok(None)
    case _ => Ok(None)
  }

  /** What the completion service returned as the message content:
      nothing usable (absent, null or the empty string), or some text
      together with the outcome of `JSON.parse` on it. */
  datatype Reply = Missing | Content(parsed: Result<Json>)

  /** `JSON.parse(content || fallbackText)`, where the fallback text parses to `fallback`. */
  function Parse(reply: Reply, fallback: Json): (r: Result<Json>)
    ensures reply.Missing? ==> r == Ok(fallback)
    ensures reply.Content? ==> r == reply.parsed
  {
    match reply
    case Missing => Ok(fallback)
    case Content(p) => p
  }

  /** The `'[]'` default of the array sections. */
  const EmptyArray := JArray([])

  /** The `'{}'` default of the object sections. */
  const EmptyObject := JObject(map[])

  /** The wrapper key each array section accepts besides `data`. */
  const CareersKey := "careers"
  const ProjectsKey := "projects"
  const TimelineKey := "timeline"
  const DataKey := "data"

  /** An object section (personality analysis, planning advice, summary):
      the parsed reply, `{}` when there is none. */
  function ObjectSection(reply: Reply): (r: Result<Json>)
    ensures reply.Missing? ==> r == Ok(EmptyObject)
    ensures reply.Content? ==> r == reply.parsed
  {
    Parse(reply, EmptyObject)
  }

  /** `v.key || fallback` for a non-null `v`. */
  function OrElse(v: Json, key: string, fallback: Json): (r: Json)
    requires !v.JNull?
    ensures v.JObject? && key in v.fields && Truthy(v.fields[key]) ==> r == v.fields[key]
    ensures !(v.JObject? && key in v.fields && Truthy(v.fields[key])) ==> r == fallback
  {
    var p := Property(v, key);
    if p.Ok? && p.value.Some? && Truthy(p.value.value) then p.value.value else fallback
  }

  /** An array section (career matches, education projects, timeline,
      partner projects): `Array.isArray(parsed) ? parsed : parsed[key] || parsed.data || []`. */
  function ArraySection(reply: Reply, key: string): (r: Result<Json>)
    // no reply: the '[]' default, which is an array
    ensures reply.Missing? ==> r == Ok(EmptyArray)
    // a failed parse or a parsed null fails the section
    ensures r.Err? <==> reply.Content? && (reply.parsed.Err? || reply.parsed.value.JNull?)
    // a parsed null fails on reading the wrapper key, the first one read
    ensures reply == Content(Ok(JNull)) ==> r == Err(NullPropertyError(key))
    // a bare array is returned as it is
    ensures reply.Content? && reply.parsed.Ok? && reply.parsed.value.JArray? ==> r == reply.parsed
    // otherwise the first truthy of the wrapper key and `data`, else []
    ensures reply.Content? && reply.parsed.Ok? && !reply.parsed.value.JArray? && !reply.parsed.value.JNull? ==>
      r == Ok(FirstTruthy(reply.parsed.value, [key, DataKey]))
  {
    var parsed :- Parse(reply, EmptyArray);
    if parsed.JArray? then Ok(parsed)
    else if parsed.JNull? then Err(NullPropertyError(key))
    else
      assert [key, DataKey][1..] == [DataKey] && [DataKey][1..] == [];
      assert FirstTruthy(parsed, []) == EmptyArray;
      assert FirstTruthy(parsed, [DataKey]) == OrElse(parsed, DataKey, EmptyArray);
      assert FirstTruthy(parsed, [key, DataKey]) == OrElse(parsed, key, FirstTruthy(parsed, [DataKey]));
      Ok(OrElse(parsed, key, OrElse(parsed, DataKey, EmptyArray)))
  }

  /** Reference reading of `v[k1] || v[k2] || ... || []`: the value of the
      first key whose property is truthy, `[]` if none is. */
  function FirstTruthy(v: Json, keys: seq<string>): Json
    requires !v.JNull?
  {
    if |keys| == 0 then EmptyArray
    else if v.JObject? && keys[0] in v.fields && Truthy(v.fields[keys[0]]) then v.fields[keys[0]]
    else FirstTruthy(v, keys[1..])
  }

  /** A successful array section never yields a falsy value: it is an array,
      or whatever truthy value sat under the wrapper key or `data`. */
  lemma ArraySectionTruthy(reply: Reply, key: string)
    requires ArraySection(reply, key).Ok?
    ensures Truthy(ArraySection(reply, key).value)
  {
  }

  /** Because `[]` is truthy, an empty array under the wrapper key wins over a
      non-empty `data` array. */
  lemma EmptyWrapperBeatsData(key: string, data: seq<Json>)
    requires key != DataKey
    ensures ArraySection(Content(Ok(JObject(map[key := JArray([]), DataKey := JArray(data)]))), key) == Ok(EmptyArray)
  {
  }

  /** With neither key truthy (absent, `null`, `false`, `0`, `""`), or with a
      primitive reply, the section is the empty array. */
  lemma NoWrapperGivesEmpty(reply: Reply, key: string)
    requires reply.Content? && reply.parsed.Ok?
    requires var v := reply.parsed.value;
      !v.JArray? && !v.JNull? &&
      (v.JObject? ==> (key !in v.fields || !Truthy(v.fields[key])) && (DataKey !in v.fields || !Truthy(v.fields[DataKey])))
    ensures ArraySection(reply, key) == Ok(EmptyArray)
  {
  }
}
