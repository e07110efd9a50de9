/** The reporting unit: exception records, the event record, and its
    dictionary form (`to_dict`), which is what `before_send` and the
    transport see. */
module Events {
  import opened Wrappers
  import opened Json
  import opened Levels
  import opened Breadcrumbs

  /** One stack frame. How frames are read off a live traceback is not
      modelled; they arrive already extracted. */
  datatype Frame = Frame(filename: string, functionName: string, lineno: int)

  /** One exception: its class name, message, defining module and frames. */
  datatype ExceptionInfo = ExceptionInfo(
    typeName: string,
    value: string,
    moduleName: string,
    stacktrace: seq<Frame>)

  /** One captured occurrence. `exception` holds the `values` list when the
      event came from an exception. */
  datatype Event = Event(
    eventId: string,
    timestamp: string,
    level: Level,
    message: Option<string>,
    exception: Option<seq<ExceptionInfo>>,
    environment: Option<string>,
    release: Option<string>,
    user: Option<Payload>,
    tags: map<string, string>,
    extra: Payload,
    breadcrumbs: seq<Breadcrumb>)

  function EncodeFrame(f: Frame): Json {
    JObj(map["filename" := JStr(f.filename), "function" := JStr(f.functionName), "lineno" := JNum(f.lineno)])
  }

  function DecodeFrame(j: Json): Option<Frame> {
    if j.JObj? && "lineno" in j.fields && j.fields["lineno"].JNum? then
      var filename :- GetStr(j.fields, "filename");
      var functionName :- GetStr(j.fields, "function");
      Some(Frame(filename, functionName, j.fields["lineno"].n))
    else None
  }

  /** The exception's dictionary form: `type`, `value`, `module` and
      `stacktrace.frames`, the frames in their extracted order. */
  function EncodeException(x: ExceptionInfo): (j: Json)
    ensures j.JObj? && "type" in j.fields && "value" in j.fields && "stacktrace" in j.fields
    ensures j.fields["type"] == JStr(x.typeName) && j.fields["value"] == JStr(x.value)
    ensures j.fields["stacktrace"].JObj? && "frames" in j.fields["stacktrace"].fields
  {
    JObj(map[
      "type" := JStr(x.typeName),
      "value" := JStr(x.value),
      "module" := JStr(x.moduleName),
      "stacktrace" := JObj(map["frames" := JArr(EncodeSeq(x.stacktrace, EncodeFrame))])])
  }

  function DecodeException(j: Json): Option<ExceptionInfo> {
    if !j.JObj? then None
    else
      var d := j.fields;
      var typeName :- GetStr(d, "type");
      var value :- GetStr(d, "value");
      var moduleName :- GetStr(d, "module");
      if "stacktrace" in d && d["stacktrace"].JObj? && "frames" in d["stacktrace"].fields
         && d["stacktrace"].fields["frames"].JArr? then
        var frames :- DecodeSeq(d["stacktrace"].fields["frames"].items, DecodeFrame);
        Some(ExceptionInfo(typeName, value, moduleName, frames))
      else None
  }

  lemma DecodeEncodeException(x: ExceptionInfo)
    ensures DecodeException(EncodeException(x)) == Some(x)
  {
    forall f | f in x.stacktrace
      ensures DecodeFrame(EncodeFrame(f)) == Some(f)
    {
    }
    DecodeEncodeSeq(x.stacktrace, EncodeFrame, DecodeFrame);
  }

  lemma DecodeEncodeExceptions(xs: seq<ExceptionInfo>)
    ensures DecodeSeq(EncodeSeq(xs, EncodeException), DecodeException) == Some(xs)
  {
    forall x | x in xs
      ensures DecodeException(EncodeException(x)) == Some(x)
    {
      DecodeEncodeException(x);
    }
    DecodeEncodeSeq(xs, EncodeException, DecodeException);
  }

  /** A `{"values": [...]}` wrapper, as used for exceptions and breadcrumbs. */
  function Values(items: seq<Json>): Json {
    JObj(map["values" := JArr(items)])
  }

  function GetValues(j: Json): Option<seq<Json>> {
    if j.JObj? && "values" in j.fields && j.fields["values"].JArr? then
      Some(j.fields["values"].items)
    else None
  }

  /** The top-level keys of an event's dictionary form. */
  const EventKeys: set<string> := {
    "event_id", "timestamp", "level", "message", "exception", "environment",
    "release", "user", "tags", "extra", "breadcrumbs"}

  /** What an event writes under `key`, or `None` when it leaves the key out.
      Identity, timestamp, level, tags, extra and breadcrumbs are always
      written; message, exception, environment, release and user only when
      set. */
  function EventField(e: Event, key: string): (r: Option<Json>)
    ensures r.Some? ==> key in EventKeys
  {
    if key == "event_id" then Some(JStr(e.eventId))
    else if key == "timestamp" then Some(JStr(e.timestamp))
    else if key == "level" then Some(JStr(Name(e.level)))
    else if key == "message" then StrOpt(e.message)
    else if key == "exception" then
      (match e.exception
       case None => None
       case Some(xs) => Some(Values(EncodeSeq(xs, EncodeException))))
    else if key == "environment" then StrOpt(e.environment)
    else if key == "release" then StrOpt(e.release)
    else if key == "user" then ObjOpt(e.user)
    else if key == "tags" then Some(EncodeStrMap(e.tags))
    else if key == "extra" then Some(JObj(e.extra))
    else if key == "breadcrumbs" then Some(Values(EncodeSeq(e.breadcrumbs, EncodeBreadcrumb)))
    else None
  }

  /** The event's dictionary form (`to_dict`): only the known top-level
      keys; identity, timestamp, level, tags and extra always present with
      the event's values; message, environment, release, user and exception
      present exactly when the event sets them. */
  function ToDict(e: Event): (d: Payload)
    ensures d.Keys <= EventKeys
    ensures "event_id" in d && d["event_id"] == JStr(e.eventId)
    ensures "timestamp" in d && d["timestamp"] == JStr(e.timestamp)
    ensures "level" in d && d["level"] == JStr(Name(e.level))
    ensures "tags" in d && d["tags"] == EncodeStrMap(e.tags)
    ensures "extra" in d && d["extra"] == JObj(e.extra)
    ensures "message" in d <==> e.message.Some?
    ensures e.message.Some? ==> d["message"] == JStr(e.message.value)
    ensures "environment" in d <==> e.environment.Some?
    ensures e.environment.Some? ==> d["environment"] == JStr(e.environment.value)
    ensures "release" in d <==> e.release.Some?
    ensures e.release.Some? ==> d["release"] == JStr(e.release.value)
    ensures "user" in d <==> e.user.Some?
    ensures e.user.Some? ==> d["user"] == JObj(e.user.value)
    ensures "exception" in d <==> e.exception.Some?
    ensures e.exception.Some? ==> d["exception"] == Values(EncodeSeq(e.exception.value, EncodeException))
    ensures "breadcrumbs" in d && d["breadcrumbs"] == Values(EncodeSeq(e.breadcrumbs, EncodeBreadcrumb))
    ensures forall k :: k in d <==> EventField(e, k).Some?
    ensures forall k :: k in d ==> Some(d[k]) == EventField(e, k)
  {
    assert EventField(e, "event_id").Some? && EventField(e, "timestamp").Some?;
    assert EventField(e, "level").Some? && EventField(e, "tags").Some?;
    assert EventField(e, "extra").Some? && EventField(e, "breadcrumbs").Some?;
    assert EventField(e, "message").Some? <==> e.message.Some?;
    assert EventField(e, "environment").Some? <==> e.environment.Some?;
    assert EventField(e, "release").Some? <==> e.release.Some?;
    assert EventField(e, "user").Some? <==> e.user.Some?;
    assert EventField(e, "exception").Some? <==> e.exception.Some?;
    map k | k in EventKeys && EventField(e, k).Some? :: EventField(e, k).value
  }

  /** The serialised fields callers read: `event_id` echoes the event's id,
      `level` is the level's lowercase name, and message, user, tags,
      exception and breadcrumbs carry the event's own values. */
  lemma ToDictFields(e: Event)
    ensures var d := ToDict(e);
      && "event_id" in d && d["event_id"] == JStr(e.eventId)
      && "level" in d && d["level"] == JStr(Name(e.level)) && IsLowercaseWord(d["level"].s)
      && ("message" in d <==> e.message.Some?)
      && (e.message.Some? ==> d["message"] == JStr(e.message.value))
      && "tags" in d && d["tags"] == EncodeStrMap(e.tags)
      && ("user" in d <==> e.user.Some?)
      && (e.user.Some? ==> d["user"] == JObj(e.user.value))
      && ("exception" in d <==> e.exception.Some?)
      && (e.exception.Some? ==> GetValues(d["exception"]) == Some(EncodeSeq(e.exception.value, EncodeException)))
      && "breadcrumbs" in d && GetValues(d["breadcrumbs"]) == Some(EncodeSeq(e.breadcrumbs, EncodeBreadcrumb))
  {
    var d := ToDict(e);
    assert EventField(e, "event_id").Some?;
    assert EventField(e, "level").Some?;
    assert EventField(e, "tags").Some?;
    assert EventField(e, "breadcrumbs").Some?;
    assert EventField(e, "message") == StrOpt(e.message);
    assert EventField(e, "user") == ObjOpt(e.user);
  }

  /** Reads an event back from its dictionary form; `None` when a required
      key is missing or a value has the wrong shape. */
  function FromDict(d: Payload): Option<Event> {
    var eventId :- GetStr(d, "event_id");
    var timestamp :- GetStr(d, "timestamp");
    var levelName :- GetStr(d, "level");
    var level :- Parse(levelName);
    var message :- GetOptStr(d, "message");
    var environment :- GetOptStr(d, "environment");
    var release :- GetOptStr(d, "release");
    var exception :- if "exception" !in d then Some(None)
      else
        match GetValues(d["exception"])
        case None => None
        case Some(items) =>
          match DecodeSeq(items, DecodeException)
          case None => None
          case Some(xs) => Some(Some(xs));
    var user :- if "user" !in d then Some(None)
      else if d["user"].JObj? then Some(Some(d["user"].fields))
      else None;
    if "tags" in d && "extra" in d && d["extra"].JObj? && "breadcrumbs" in d then
      var tags :- DecodeStrMap(d["tags"]);
      var items :- GetValues(d["breadcrumbs"]);
      var breadcrumbs :- DecodeSeq(items, DecodeBreadcrumb);
      Some(Event(eventId, timestamp, level, message, exception, environment, release,
                 user, tags, d["extra"].fields, breadcrumbs))
    else None
  }

  /** The decoding step for each top-level key undoes the encoding of that field. */
  lemma DecodeEventFields(e: Event)
    ensures var d := ToDict(e);
      && GetStr(d, "event_id") == Some(e.eventId)
      && GetStr(d, "timestamp") == Some(e.timestamp)
      && GetStr(d, "level") == Some(Name(e.level))
      && GetOptStr(d, "message") == Some(e.message)
      && GetOptStr(d, "environment") == Some(e.environment)
      && GetOptStr(d, "release") == Some(e.release)
  {
    var d := ToDict(e);
    assert EventField(e, "event_id").Some?;
    assert EventField(e, "timestamp").Some?;
    assert EventField(e, "level").Some?;
    assert EventField(e, "message") == StrOpt(e.message);
    assert EventField(e, "environment") == StrOpt(e.environment);
    assert EventField(e, "release") == StrOpt(e.release);
  }

  lemma DecodeEventContext(e: Event)
    ensures var d := ToDict(e);
      && "tags" in d && "extra" in d && d["extra"] == JObj(e.extra) && "breadcrumbs" in d
      && DecodeStrMap(d["tags"]) == Some(e.tags)
      && GetValues(d["breadcrumbs"]) == Some(EncodeSeq(e.breadcrumbs, EncodeBreadcrumb))
      && ("user" in d <==> e.user.Some?)
      && (e.user.Some? ==> d["user"] == JObj(e.user.value))
      && ("exception" in d <==> e.exception.Some?)
      && (e.exception.Some? ==> GetValues(d["exception"]) == Some(EncodeSeq(e.exception.value, EncodeException)))
  {
    var d := ToDict(e);
    ToDictFields(e);
    assert EventField(e, "extra").Some?;
    DecodeEncodeStrMap(e.tags);
  }

  /** Serialisation loses nothing: every field of the event, with the literal
      values it was built from, can be read back from its dictionary form. */
  lemma FromDictToDict(e: Event)
    ensures FromDict(ToDict(e)) == Some(e)
  {
    ParseName(e.level);
    DecodeEventFields(e);
    DecodeEventContext(e);
    DecodeEncodeBreadcrumbs(e.breadcrumbs);
    if e.exception.Some? {
      DecodeEncodeExceptions(e.exception.value);
    }
  }
}
