/** Breadcrumb records and the bounded, oldest-first history a scope keeps of them. */
module Breadcrumbs {
  import opened Wrappers
  import opened Json
  import opened Levels

  /** A note of earlier activity. The timestamp is supplied by the caller
      (the clock is not modelled) and kept as its serialised text. */
  datatype Breadcrumb = Breadcrumb(
    timestamp: string,
    message: Option<string>,
    category: Option<string>,
    level: Level,
    data: Option<Payload>)

  function Min(a: nat, b: nat): nat {
    if a <= b then a else b
  }

  /** The reference meaning of a history of capacity `cap`: the last `cap`
      entries of everything ever added, oldest first. */
  function LastN<T>(xs: seq<T>, cap: nat): (r: seq<T>)
    ensures |r| == Min(|xs|, cap)
    ensures r == xs[|xs| - |r|..]
  {
    if |xs| <= cap then xs else xs[|xs| - cap..]
  }

  /** One append to a full-or-not history: the new entry goes last and, when
      that overflows the capacity, the oldest entry is evicted. */
  function Push<T>(buf: seq<T>, cap: nat, x: T): (r: seq<T>)
    requires |buf| <= cap
    ensures |r| <= cap
    ensures r == LastN(buf + [x], cap)
  {
    var grown := buf + [x];
    if |grown| > cap then grown[1..] else grown
  }

  /** Appends each entry of `xs` in turn. */
  function PushAll<T>(buf: seq<T>, cap: nat, xs: seq<T>): seq<T>
    requires |buf| <= cap
    decreases |xs|
  {
    if xs == [] then buf
    else PushAll(Push(buf, cap, xs[0]), cap, xs[1..])
  }

  /** The ring-buffer property: after any sequence of appends the history
      holds exactly the most recent `cap` entries, oldest first. */
  lemma {:induction false} PushAllKeepsMostRecent<T>(buf: seq<T>, cap: nat, xs: seq<T>)
    requires |buf| <= cap
    ensures PushAll(buf, cap, xs) == LastN(buf + xs, cap)
    decreases |xs|
  {
    if xs == [] {
      assert buf + xs == buf;
    } else {
      var x, rest := xs[0], xs[1..];
      var next := Push(buf, cap, x);
      PushAllKeepsMostRecent(next, cap, rest);
      calc {
        PushAll(buf, cap, xs);
        PushAll(next, cap, rest);
        LastN(next + rest, cap);
        LastN(LastN(buf + [x], cap) + rest, cap);
        { LastNConcat(buf + [x], cap, rest); }
        LastN(buf + [x] + rest, cap);
        { ConsSplit(buf, xs); }
        LastN(buf + xs, cap);
      }
    }
  }

  lemma ConsSplit<T>(buf: seq<T>, xs: seq<T>)
    requires xs != []
    ensures buf + [xs[0]] + xs[1..] == buf + xs
  {
  }

  /** Trimming to the last `cap` entries before appending more does not
      change which `cap` entries are last afterwards. */
  lemma {:induction false} LastNConcat<T>(xs: seq<T>, cap: nat, ys: seq<T>)
    ensures LastN(LastN(xs, cap) + ys, cap) == LastN(xs + ys, cap)
  {
    var a := LastN(LastN(xs, cap) + ys, cap);
    var b := LastN(xs + ys, cap);
    assert |a| == |b|;
    forall i | 0 <= i < |a|
      ensures a[i] == b[i]
    {
    }
  }

  /** Breadcrumb as it appears under `breadcrumbs.values[]` in a payload; absent
      optional fields are left out. */
  function EncodeBreadcrumb(b: Breadcrumb): (j: Json)
    ensures j.JObj?
    ensures "timestamp" in j.fields && "level" in j.fields
    ensures ("message" in j.fields <==> b.message.Some?) && ("category" in j.fields <==> b.category.Some?)
    ensures b.message.Some? ==> j.fields["message"] == JStr(b.message.value)
    ensures b.category.Some? ==> j.fields["category"] == JStr(b.category.value)
  {
    var d := map["timestamp" := JStr(b.timestamp), "level" := JStr(Name(b.level))];
    var d := PutOpt(d, "message", StrOpt(b.message));
    var d := PutOpt(d, "category", StrOpt(b.category));
    var d := PutOpt(d, "data", ObjOpt(b.data));
    JObj(d)
  }

  function DecodeBreadcrumb(j: Json): Option<Breadcrumb> {
    if !j.JObj? then None
    else
      var d := j.fields;
      var timestamp :- GetStr(d, "timestamp");
      var levelName :- GetStr(d, "level");
      var level :- Parse(levelName);
      var message :- GetOptStr(d, "message");
      var category :- GetOptStr(d, "category");
      var data :- if "data" in d then
          (if d["data"].JObj? then Some(Some(d["data"].fields)) else None)
        else Some(None);
      Some(Breadcrumb(timestamp, message, category, level, data))
  }

  lemma DecodeEncodeBreadcrumb(b: Breadcrumb)
    ensures DecodeBreadcrumb(EncodeBreadcrumb(b)) == Some(b)
  {
    ParseName(b.level);
  }

  /** The whole history survives serialisation, entry for entry and in order. */
  lemma DecodeEncodeBreadcrumbs(bs: seq<Breadcrumb>)
    ensures DecodeSeq(EncodeSeq(bs, EncodeBreadcrumb), DecodeBreadcrumb) == Some(bs)
  {
    forall b | b in bs
      ensures DecodeBreadcrumb(EncodeBreadcrumb(b)) == Some(b)
    {
      DecodeEncodeBreadcrumb(b);
    }
    DecodeEncodeSeq(bs, EncodeBreadcrumb, DecodeBreadcrumb);
  }
}
