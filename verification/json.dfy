/** The serialisable values an event payload is made of: the JSON-like
    dictionaries that `to_dict` produces, that `before_send` receives and
    returns, and that the transport is handed. */
module Json {
  import opened Wrappers

  datatype Json =
    | JNull
    | JBool(b: bool)
    | JNum(n: int)
    | JStr(s: string)
    | JArr(items: seq<Json>)
    | JObj(fields: map<string, Json>)

  /** A serialised event or sub-record: a string-keyed dictionary. */
  type Payload = map<string, Json>

  /** `d[key]` as a string, or `None` when the key is missing or holds something else. */
  function GetStr(d: Payload, key: string): (r: Option<string>)
    ensures r.Some? <==> key in d && d[key].JStr?
    ensures r.Some? ==> d[key] == JStr(r.value)
  {
    if key in d && d[key].JStr? then Some(d[key].s) else None
  }

  /** An optional string field: a missing key decodes to `None`, a string to
      `Some`, anything else is malformed (outer `None`). */
  function GetOptStr(d: Payload, key: string): (r: Option<Option<string>>)
    ensures key !in d ==> r == Some(None)
    ensures key in d ==> (r.Some? <==> d[key].JStr?)
    ensures r.Some? && r.value.Some? ==> key in d && d[key] == JStr(r.value.value)
  {
    if key !in d then Some(None)
    else if d[key].JStr? then Some(Some(d[key].s))
    else None
  }

  /** Writes `key` only when there is a value for it: how optional fields
      are left out of a dictionary. */
  function PutOpt(d: Payload, key: string, v: Option<Json>): (r: Payload)
    ensures v.None? ==> r == d
    ensures v.Some? ==> r == d[key := v.value]
  {
    match v
    case None => d
    case Some(j) => d[key := j]
  }

  function StrOpt(s: Option<string>): (r: Option<Json>)
    ensures r.Some? <==> s.Some?
    ensures s.Some? ==> r.value == JStr(s.value)
  {
    match s
    case None => None
    case Some(v) => Some(JStr(v))
  }

  function ObjOpt(m: Option<Payload>): (r: Option<Json>)
    ensures r.Some? <==> m.Some?
    ensures m.Some? ==> r.value == JObj(m.value)
  {
    match m
    case None => None
    case Some(v) => Some(JObj(v))
  }

  /** A string-to-string mapping (tags) as a JSON object. */
  function EncodeStrMap(m: map<string, string>): (j: Json)
    ensures j.JObj? && j.fields.Keys == m.Keys
    ensures forall k :: k in m ==> j.fields[k] == JStr(m[k])
  {
    JObj(map k | k in m :: JStr(m[k]))
  }

  /** Reads a JSON object back as a string-to-string mapping; `None` when it is
      not an object or some value is not a string. */
  function DecodeStrMap(j: Json): (r: Option<map<string, string>>)
    ensures r.Some? <==> j.JObj? && forall k :: k in j.fields ==> j.fields[k].JStr?
    ensures r.Some? ==> r.value.Keys == j.fields.Keys
    ensures r.Some? ==> forall k :: k in r.value ==> j.fields[k] == JStr(r.value[k])
  {
    if j.JObj? && forall k :: k in j.fields ==> j.fields[k].JStr? then
      Some(map k | k in j.fields :: j.fields[k].s)
    else
      None
  }

  /** Reads a JSON object back as a dictionary of arbitrary values. */
  function DecodeObj(j: Json): (r: Option<Payload>)
    ensures r.Some? <==> j.JObj?
    ensures r.Some? ==> j == JObj(r.value)
  {
    if j.JObj? then Some(j.fields) else None
  }

  lemma DecodeEncodeStrMap(m: map<string, string>)
    ensures DecodeStrMap(EncodeStrMap(m)) == Some(m)
  {
    var r := DecodeStrMap(EncodeStrMap(m));
    assert r.Some?;
    assert r.value.Keys == m.Keys;
    assert forall k :: k in m ==> r.value[k] == m[k];
    assert r.value == m;
  }

  /** Writes each element with `enc`, keeping the order. */
  function EncodeSeq<T>(xs: seq<T>, enc: T -> Json): (r: seq<Json>)
    ensures |r| == |xs|
    ensures forall i :: 0 <= i < |xs| ==> r[i] == enc(xs[i])
  {
    seq(|xs|, i requires 0 <= i < |xs| => enc(xs[i]))
  }

  /** Reads each element with `dec`; the whole list fails when one element does. */
  function DecodeSeq<T>(js: seq<Json>, dec: Json -> Option<T>): (r: Option<seq<T>>)
    ensures r.Some? ==> |r.value| == |js|
    ensures r.Some? ==> forall i :: 0 <= i < |js| ==> dec(js[i]) == Some(r.value[i])
    ensures r.None? <==> exists i :: 0 <= i < |js| && dec(js[i]).None?
  {
    if js == [] then Some([])
    else
      match dec(js[0])
      case None => None
      case Some(x) =>
        match DecodeSeq(js[1..], dec)
        case None => None
        case Some(rest) => Some([x] + rest)
  }

  /** Decoding undoes encoding element by element, hence for the whole list. */
  lemma DecodeEncodeSeq<T>(xs: seq<T>, enc: T -> Json, dec: Json -> Option<T>)
    requires forall x :: x in xs ==> dec(enc(x)) == Some(x)
    ensures DecodeSeq(EncodeSeq(xs, enc), dec) == Some(xs)
  {
    var js := EncodeSeq(xs, enc);
    assert forall i :: 0 <= i < |xs| ==> dec(js[i]) == Some(xs[i]) by {
      forall i | 0 <= i < |xs|
        ensures dec(js[i]) == Some(xs[i])
      {
        assert xs[i] in xs;
      }
    }
    var r := DecodeSeq(js, dec);
    assert r.Some?;
    assert forall i :: 0 <= i < |xs| ==> r.value[i] == xs[i];
    assert r.value == xs;
  }
}
