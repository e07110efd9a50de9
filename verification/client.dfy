/** The capture pipeline and the client that owns a root scope and a
    transport. Everything nondeterministic in the SDK (the event id,
    the clock, the sampling draw) is a parameter, so one capture is a pure
    function from a scope snapshot and the transport's log so far to the
    returned id and the new log. */
module Clients {
  import opened Wrappers
  import opened Json
  import opened Levels
  import opened Breadcrumbs
  import opened Events
  import opened Scopes

  /** `before_send`: receives the event's dictionary form and returns the
      dictionary to send, or `None` to drop the event. */
  type Hook = Payload -> Option<Payload>

  /** The client's configuration, fixed at construction. */
  datatype ClientOptions = ClientOptions(
    dsn: string,
    environment: Option<string>,
    release: Option<string>,
    sampleRate: real,
    beforeSend: Option<Hook>,
    maxBreadcrumbs: nat)

  /** A configuration with only the DSN given: every event sampled, no hook,
      the default breadcrumb capacity. */
  function DefaultOptions(dsn: string): (o: ClientOptions)
    ensures o.sampleRate == 1.0 && o.beforeSend.None?
    ensures o.maxBreadcrumbs == DefaultMaxBreadcrumbs
  {
    ClientOptions(dsn, None, None, 1.0, None, DefaultMaxBreadcrumbs)
  }

  /** The level `capture_message` reports at when the caller gives none. */
  const DefaultMessageLevel: Level := Info

  /** What a capture call was asked to report. */
  datatype CaptureRequest =
    | MessageCapture(text: string, level: Level)
    | ExceptionCapture(info: ExceptionInfo)

  /** The level an event is reported at: the caller's for messages,
      `error` for exceptions. */
  function RequestLevel(c: CaptureRequest): Level {
    match c
    case MessageCapture(_, level) => level
    case ExceptionCapture(_) => Error
  }

  /** Build step: an event carrying the request's content, the client's
      deployment metadata and a snapshot of the scope. */
  function BuildEvent(opts: ClientOptions, scope: Scope, c: CaptureRequest, eventId: string, timestamp: string): Event {
    Event(
      eventId,
      timestamp,
      RequestLevel(c),
      if c.MessageCapture? then Some(c.text) else None,
      if c.ExceptionCapture? then Some([c.info]) else None,
      opts.environment,
      opts.release,
      scope.user,
      scope.tags,
      scope.extra,
      scope.breadcrumbs)
  }

  /** Sample step: with a uniform draw in [0, 1), an event survives when the
      rate is at least 1 or the draw falls below the rate. */
  function Sampled(rate: real, draw: real): (keep: bool)
    requires 0.0 <= draw < 1.0
    ensures rate >= 1.0 ==> keep
    ensures rate <= 0.0 ==> !keep
    ensures keep <==> draw < rate
  {
    !(rate < 1.0 && draw >= rate)
  }

  /** User-hook step: no hook passes the payload through unchanged. */
  function ApplyHook(hook: Option<Hook>, payload: Payload): Option<Payload> {
    match hook
    case None => Some(payload)
    case Some(f) => f(payload)
  }

  /** The outcome of one capture: the id returned to the caller (empty when
      the event was dropped) and everything the transport has been sent. */
  datatype Captured = Captured(eventId: string, sent: seq<Payload>)

  /** One capture call: build, sample, run the hook, dispatch. A dropped event
      leaves the transport untouched and returns the empty id; a kept one
      appends exactly one payload (the hook's output, when there is a hook)
      and returns the event's id. */
  function CaptureEvent(opts: ClientOptions, scope: Scope, c: CaptureRequest, eventId: string,
                        timestamp: string, draw: real, sent: seq<Payload>): (r: Captured)
    requires eventId != ""
    requires 0.0 <= draw < 1.0
    ensures r.eventId == "" || r.eventId == eventId
    ensures r.eventId == "" ==> r.sent == sent
    ensures r.eventId != "" ==> |r.sent| == |sent| + 1 && r.sent[..|sent|] == sent
    ensures r.eventId != "" <==>
      Sampled(opts.sampleRate, draw) && ApplyHook(opts.beforeSend, ToDict(BuildEvent(opts, scope, c, eventId, timestamp))).Some?
    ensures r.eventId != "" ==>
      Some(r.sent[|sent|]) == ApplyHook(opts.beforeSend, ToDict(BuildEvent(opts, scope, c, eventId, timestamp)))
    ensures opts.sampleRate <= 0.0 ==> r.eventId == "" && r.sent == sent
    ensures opts.sampleRate >= 1.0 && opts.beforeSend.None? ==>
      r.eventId == eventId && r.sent == sent + [ToDict(BuildEvent(opts, scope, c, eventId, timestamp))]
  {
    var event := BuildEvent(opts, scope, c, eventId, timestamp);
    if !Sampled(opts.sampleRate, draw) then Captured("", sent)
    else
      match ApplyHook(opts.beforeSend, ToDict(event))
      case None => Captured("", sent)
      case Some(payload) => Captured(event.eventId, sent + [payload])
  }

  /** Without a hook, a kept event's payload is exactly the scope snapshot
      and the request: reading it back gives the event id, the request's
      level (`error` for exceptions) and message or exception, the client's
      environment and release, and the scope's user, tags, extra and
      breadcrumbs, oldest first; its `level` is the level's lowercase name. */
  lemma CaptureSendsSnapshot(opts: ClientOptions, scope: Scope, c: CaptureRequest, eventId: string,
                             timestamp: string, draw: real, sent: seq<Payload>)
    requires eventId != "" && 0.0 <= draw < 1.0
    requires opts.beforeSend.None? && Sampled(opts.sampleRate, draw)
    ensures var r := CaptureEvent(opts, scope, c, eventId, timestamp, draw, sent);
      && r.eventId == eventId && |r.sent| == |sent| + 1
      && var p := r.sent[|sent|];
      && "level" in p && p["level"] == JStr(Name(RequestLevel(c)))
      && "event_id" in p && p["event_id"] == JStr(eventId)
      && ("user" in p <==> scope.user.Some?)
      && (scope.user.Some? ==> p["user"] == JObj(scope.user.value))
      && "tags" in p && p["tags"] == EncodeStrMap(scope.tags)
      && "breadcrumbs" in p && GetValues(p["breadcrumbs"]) == Some(EncodeSeq(scope.breadcrumbs, EncodeBreadcrumb))
      && FromDict(p).Some?
      && var e := FromDict(p).value;
      && e.eventId == eventId && e.level == RequestLevel(c)
      && e.message == (if c.MessageCapture? then Some(c.text) else None)
      && e.exception == (if c.ExceptionCapture? then Some([c.info]) else None)
      && e.environment == opts.environment && e.release == opts.release
      && e.user == scope.user && e.tags == scope.tags && e.extra == scope.extra
      && e.breadcrumbs == scope.breadcrumbs
  {
    var event := BuildEvent(opts, scope, c, eventId, timestamp);
    ToDictFields(event);
    FromDictToDict(event);
  }

  /** A hook that, whenever it keeps a payload carrying an `event_id`,
      keeps that `event_id` unchanged. */
  ghost predicate KeepsEventId(hook: Hook) {
    forall p :: "event_id" in p && hook(p).Some? ==>
      "event_id" in hook(p).value && hook(p).value["event_id"] == p["event_id"]
  }

  /** The id returned to the caller is the id of the event actually sent,
      with or without a hook, provided the hook does not rewrite `event_id`. */
  lemma ReturnedIdMatchesSentEvent(opts: ClientOptions, scope: Scope, c: CaptureRequest, eventId: string,
                                   timestamp: string, draw: real, sent: seq<Payload>)
    requires eventId != "" && 0.0 <= draw < 1.0
    requires opts.beforeSend.Some? ==> KeepsEventId(opts.beforeSend.value)
    ensures var r := CaptureEvent(opts, scope, c, eventId, timestamp, draw, sent);
      r.eventId != "" ==>
        && |r.sent| == |sent| + 1
        && "event_id" in r.sent[|sent|]
        && r.sent[|sent|]["event_id"] == JStr(r.eventId)
  {
    ToDictFields(BuildEvent(opts, scope, c, eventId, timestamp));
  }

  /** An exception capture that is kept and not rewritten sends an
      `exception.values` list of exactly one entry, whose `type` and `value`
      are the exception's. */
  lemma CaptureExceptionSendsOneValue(opts: ClientOptions, scope: Scope, info: ExceptionInfo, eventId: string,
                                      timestamp: string, draw: real, sent: seq<Payload>)
    requires eventId != "" && 0.0 <= draw < 1.0
    requires opts.beforeSend.None? && Sampled(opts.sampleRate, draw)
    ensures var r := CaptureEvent(opts, scope, ExceptionCapture(info), eventId, timestamp, draw, sent);
      && |r.sent| == |sent| + 1
      && var p := r.sent[|sent|];
      && "exception" in p && GetValues(p["exception"]).Some?
      && var values := GetValues(p["exception"]).value;
      && |values| == 1
      && values[0].JObj? && "type" in values[0].fields && "value" in values[0].fields
      && values[0].fields["type"] == JStr(info.typeName)
      && values[0].fields["value"] == JStr(info.value)
      && p["level"] == JStr("error")
  {
    var event := BuildEvent(opts, scope, ExceptionCapture(info), eventId, timestamp);
    ToDictFields(event);
  }

  /** The mock transport: a log of what it was sent, and whether it was
      flushed or closed. */
  datatype Transport = Transport(sent: seq<Payload>, flushed: bool, closed: bool)

  /** A client: its configuration, its root scope and its transport. */
  datatype Client = Client(options: ClientOptions, scope: Scope, transport: Transport) {
    predicate Valid() {
      scope.Valid() && scope.maxBreadcrumbs == options.maxBreadcrumbs
    }
  }

  /** `StatlyClient(...)`: keeps the configuration as given, starts with an
      empty root scope of the configured capacity and an untouched transport. */
  function NewClient(opts: ClientOptions): (c: Client)
    ensures c.Valid() && c.options == opts
    ensures c.scope == NewScope(opts.maxBreadcrumbs)
    ensures c.transport == Transport([], false, false)
  {
    Client(opts, NewScope(opts.maxBreadcrumbs), Transport([], false, false))
  }

  /** The client's scope setters forward to its root scope and leave the
      transport alone. */
  function ClientSetUser(c: Client, fields: Payload): (r: Client)
    requires c.Valid()
    ensures r.Valid() && r.scope == SetUser(c.scope, fields) && r.transport == c.transport
    ensures r.options == c.options
  {
    c.(scope := SetUser(c.scope, fields))
  }

  function ClientSetTag(c: Client, key: string, value: string): (r: Client)
    requires c.Valid()
    ensures r.Valid() && r.scope == SetTag(c.scope, key, value) && r.transport == c.transport
    ensures r.options == c.options
  {
    c.(scope := SetTag(c.scope, key, value))
  }

  function ClientSetTags(c: Client, tags: map<string, string>): (r: Client)
    requires c.Valid()
    ensures r.Valid() && r.scope == SetTags(c.scope, tags) && r.transport == c.transport
    ensures r.options == c.options
  {
    c.(scope := SetTags(c.scope, tags))
  }

  function ClientAddBreadcrumb(c: Client, timestamp: string, message: Option<string>, category: Option<string>,
                               level: Level, data: Option<Payload>): (r: Client)
    requires c.Valid()
    ensures r.Valid() && r.scope == AddBreadcrumb(c.scope, timestamp, message, category, level, data)
    ensures r.transport == c.transport
    ensures r.options == c.options
  {
    c.(scope := AddBreadcrumb(c.scope, timestamp, message, category, level, data))
  }

  /** `capture_message` / `capture_exception` on a client: runs the pipeline
      on the root scope. The scope is not changed by a capture; only the
      transport's log may grow. */
  function Capture(c: Client, request: CaptureRequest, eventId: string, timestamp: string, draw: real): (r: (string, Client))
    requires c.Valid() && eventId != "" && 0.0 <= draw < 1.0
    ensures r.1.Valid() && r.1.scope == c.scope
    ensures r.1.transport.flushed == c.transport.flushed && r.1.transport.closed == c.transport.closed
    ensures var out := CaptureEvent(c.options, c.scope, request, eventId, timestamp, draw, c.transport.sent);
      r.0 == out.eventId && r.1.transport.sent == out.sent
    ensures r.1.options == c.options
  {
    var out := CaptureEvent(c.options, c.scope, request, eventId, timestamp, draw, c.transport.sent);
    (out.eventId, c.(transport := c.transport.(sent := out.sent)))
  }

  /** `capture_message(text, level="info")`: the outcome is the pipeline's
      (sampling, then `before_send`); the id is empty exactly when nothing
      was sent; a kept, unhooked message is sent with its text and its
      level's lowercase name. */
  function CaptureMessage(c: Client, text: string, level: Level, eventId: string, timestamp: string, draw: real): (r: (string, Client))
    requires c.Valid() && eventId != "" && 0.0 <= draw < 1.0
    ensures r.1.Valid() && r.1.scope == c.scope
    ensures r.0 == "" <==> r.1.transport.sent == c.transport.sent
    ensures r.0 != "" ==>
      && r.0 == eventId && |r.1.transport.sent| == |c.transport.sent| + 1
      && r.1.transport.sent[..|c.transport.sent|] == c.transport.sent
    ensures c.options.beforeSend.None? && Sampled(c.options.sampleRate, draw) ==>
      && r.0 == eventId
      && |r.1.transport.sent| == |c.transport.sent| + 1
      && var p := r.1.transport.sent[|c.transport.sent|];
      && "message" in p && p["message"] == JStr(text)
      && "level" in p && p["level"] == JStr(Name(level))
    ensures r.1.options == c.options
    ensures r.1.transport.flushed == c.transport.flushed && r.1.transport.closed == c.transport.closed
    ensures var out := CaptureEvent(c.options, c.scope, MessageCapture(text, level), eventId, timestamp, draw, c.transport.sent);
      r.0 == out.eventId && r.1.transport.sent == out.sent
  {
    ToDictFields(BuildEvent(c.options, c.scope, MessageCapture(text, level), eventId, timestamp));
    Capture(c, MessageCapture(text, level), eventId, timestamp, draw)
  }

  /** `capture_exception(exc)`, with the exception already extracted: the
      outcome is the pipeline's (sampling, then `before_send`); the id is
      empty exactly when nothing was sent; a kept, unhooked exception is
      sent at level `error` with a single `exception.values` entry. */
  function CaptureException(c: Client, info: ExceptionInfo, eventId: string, timestamp: string, draw: real): (r: (string, Client))
    requires c.Valid() && eventId != "" && 0.0 <= draw < 1.0
    ensures r.1.Valid() && r.1.scope == c.scope
    ensures r.0 == "" <==> r.1.transport.sent == c.transport.sent
    ensures r.0 != "" ==>
      && r.0 == eventId && |r.1.transport.sent| == |c.transport.sent| + 1
      && r.1.transport.sent[..|c.transport.sent|] == c.transport.sent
    ensures c.options.beforeSend.None? && Sampled(c.options.sampleRate, draw) ==>
      && r.0 == eventId
      && |r.1.transport.sent| == |c.transport.sent| + 1
      && var p := r.1.transport.sent[|c.transport.sent|];
      && "level" in p && p["level"] == JStr("error")
      && "exception" in p && GetValues(p["exception"]).Some?
      && |GetValues(p["exception"]).value| == 1
    ensures r.1.options == c.options
    ensures r.1.transport.flushed == c.transport.flushed && r.1.transport.closed == c.transport.closed
    ensures var out := CaptureEvent(c.options, c.scope, ExceptionCapture(info), eventId, timestamp, draw, c.transport.sent);
      r.0 == out.eventId && r.1.transport.sent == out.sent
  {
    ToDictFields(BuildEvent(c.options, c.scope, ExceptionCapture(info), eventId, timestamp));
    Capture(c, ExceptionCapture(info), eventId, timestamp, draw)
  }

  /** `flush` and `close` forward to the transport; nothing already sent is
      touched. */
  function Flush(c: Client): (r: Client)
    ensures r.transport.flushed && r.transport.sent == c.transport.sent
    ensures r.scope == c.scope && r.transport.closed == c.transport.closed
    ensures r.options == c.options && (c.Valid() ==> r.Valid())
  {
    c.(transport := c.transport.(flushed := true))
  }

  function Close(c: Client): (r: Client)
    ensures r.transport.closed && r.transport.sent == c.transport.sent
    ensures r.scope == c.scope && r.transport.flushed == c.transport.flushed
    ensures r.options == c.options && (c.Valid() ==> r.Valid())
  {
    c.(transport := c.transport.(closed := true))
  }

  /** Closing twice is the same as closing once. */
  lemma CloseIdempotent(c: Client)
    ensures Close(Close(c)).transport == Close(c).transport
  {
  }
}
