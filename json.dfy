/** The JSON values the service returns. A stored timestamp is kept as its time value; the text
    `isoformat` makes of it is not modelled. */
module Json {
  import opened Wrappers

  datatype Json =
    | JNull
    | JNum(n: int)
    | JStr(s: string)
    | JTime(ms: int)
    | JObj(fields: seq<(string, Json)>)
    | JArr(items: seq<Json>)

  /** The value of the first member named `key`. */
  function Lookup(fields: seq<(string, Json)>, key: string): Option<Json> {
    if |fields| == 0 then None
    else if fields[0].0 == key then Some(fields[0].1)
    else Lookup(fields[1..], key)
  }

  /** The member found is the first one carrying the name. */
  lemma {:induction false} LookupAt(fields: seq<(string, Json)>, i: int, key: string)
    requires 0 <= i < |fields| && fields[i].0 == key
    requires forall j :: 0 <= j < i ==> fields[j].0 != key
    ensures Lookup(fields, key) == Some(fields[i].1)
  {
    if i > 0 {
      LookupAt(fields[1..], i - 1, key);
    }
  }

  /** `obj[key]` as the client reads it: nothing unless `j` is an object with that member. */
  function Field(j: Json, key: string): Option<Json> {
    if j.JObj? then Lookup(j.fields, key) else None
  }

  /** A nullable text column: `None` is `null`. */
  function NullableStr(o: Option<string>): Json {
    if o.Some? then JStr(o.value) else JNull
  }
}
