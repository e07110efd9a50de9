/** The client and scope test cases, replayed on the model. Each lemma fixes
    the inputs a test uses and states what the test asserts; ids, timestamps
    and sampling draws that the test leaves to the runtime stay universally
    quantified. */
module Scenarios {
  import opened Wrappers
  import opened Json
  import opened Levels
  import opened Breadcrumbs
  import opened Events
  import opened Scopes
  import opened Clients

  const Dsn: string := "https://sk_test_xxx@statly.live/test"

  /** A client configured with only the DSN and the mock transport. */
  function TestClient(): (c: Client)
    ensures c.Valid() && c.transport.sent == []
    ensures c.options.beforeSend.None? && c.options.sampleRate == 1.0
  {
    NewClient(DefaultOptions(Dsn))
  }

  /** A client with the same DSN and the given `before_send`. */
  function HookedClient(hook: Hook): (c: Client)
    ensures c.Valid() && c.transport.sent == []
    ensures c.options.beforeSend == Some(hook) && c.options.sampleRate == 1.0
  {
    NewClient(DefaultOptions(Dsn).(beforeSend := Some(hook)))
  }

  lemma InitKeepsConfiguration()
    ensures var c := NewClient(DefaultOptions(Dsn).(environment := Some("test"), release := Some("1.0.0")));
      c.options.dsn == Dsn && c.options.environment == Some("test") && c.options.release == Some("1.0.0")
  {
  }

  /** Capturing `ValueError("Test error")` returns a non-empty id and sends one
      event at level "error" whose `exception.values` has one entry, of type
      "ValueError". */
  lemma CaptureExceptionScenario(frames: seq<Frame>, eventId: string, timestamp: string, draw: real)
    requires eventId != "" && 0.0 <= draw < 1.0
    ensures var info := ExceptionInfo("ValueError", "Test error", "builtins", frames);
      var r := CaptureException(TestClient(), info, eventId, timestamp, draw);
      && r.0 != ""
      && |r.1.transport.sent| == 1
      && var p := r.1.transport.sent[0];
      && "level" in p && p["level"] == JStr("error")
      && "exception" in p && GetValues(p["exception"]).Some?
      && var values := GetValues(p["exception"]).value;
      && |values| == 1
      && values[0].JObj? && "type" in values[0].fields && values[0].fields["type"] == JStr("ValueError")
  {
    var info := ExceptionInfo("ValueError", "Test error", "builtins", frames);
    var c := TestClient();
    CaptureExceptionSendsOneValue(c.options, c.scope, info, eventId, timestamp, draw, []);
  }

  lemma CaptureMessageScenario(eventId: string, timestamp: string, draw: real)
    requires eventId != "" && 0.0 <= draw < 1.0
    ensures var r := CaptureMessage(TestClient(), "Test message", Warning, eventId, timestamp, draw);
      && r.0 != ""
      && |r.1.transport.sent| == 1
      && var p := r.1.transport.sent[0];
      && "message" in p && p["message"] == JStr("Test message")
      && "level" in p && p["level"] == JStr("warning")
  {
  }

  lemma SetUserScenario(eventId: string, timestamp: string, draw: real)
    requires eventId != "" && 0.0 <= draw < 1.0
    ensures var c := ClientSetUser(TestClient(), map["id" := JStr("user-123"), "email" := JStr("test@example.com")]);
      var r := CaptureMessage(c, "Test", DefaultMessageLevel, eventId, timestamp, draw);
      && |r.1.transport.sent| == 1
      && var p := r.1.transport.sent[0];
      && "user" in p && p["user"].JObj?
      && "id" in p["user"].fields && p["user"].fields["id"] == JStr("user-123")
      && "email" in p["user"].fields && p["user"].fields["email"] == JStr("test@example.com")
  {
    var c := ClientSetUser(TestClient(), map["id" := JStr("user-123"), "email" := JStr("test@example.com")]);
    CaptureSendsSnapshot(c.options, c.scope, MessageCapture("Test", DefaultMessageLevel), eventId, timestamp, draw, []);
  }

  lemma SetTagsScenario(eventId: string, timestamp: string, draw: real)
    requires eventId != "" && 0.0 <= draw < 1.0
    ensures var c := ClientSetTags(ClientSetTag(TestClient(), "key", "value"), map["foo" := "bar", "baz" := "qux"]);
      var r := CaptureMessage(c, "Test", DefaultMessageLevel, eventId, timestamp, draw);
      && |r.1.transport.sent| == 1
      && var p := r.1.transport.sent[0];
      && "tags" in p && p["tags"].JObj?
      && "key" in p["tags"].fields && p["tags"].fields["key"] == JStr("value")
      && "foo" in p["tags"].fields && p["tags"].fields["foo"] == JStr("bar")
      && "baz" in p["tags"].fields && p["tags"].fields["baz"] == JStr("qux")
  {
    var c := ClientSetTags(ClientSetTag(TestClient(), "key", "value"), map["foo" := "bar", "baz" := "qux"]);
    CaptureSendsSnapshot(c.options, c.scope, MessageCapture("Test", DefaultMessageLevel), eventId, timestamp, draw, []);
  }

  lemma AddBreadcrumbScenario(bcTimestamp: string, eventId: string, timestamp: string, draw: real)
    requires eventId != "" && 0.0 <= draw < 1.0
    ensures var c := ClientAddBreadcrumb(TestClient(), bcTimestamp, Some("Test breadcrumb"), Some("test"), Info,
                                         Some(map["key" := JStr("value")]));
      var r := CaptureMessage(c, "Test", DefaultMessageLevel, eventId, timestamp, draw);
      && |r.1.transport.sent| == 1
      && var p := r.1.transport.sent[0];
      && "breadcrumbs" in p && GetValues(p["breadcrumbs"]).Some?
      && var values := GetValues(p["breadcrumbs"]).value;
      && |values| == 1
      && values[0].JObj?
      && "message" in values[0].fields && values[0].fields["message"] == JStr("Test breadcrumb")
      && "category" in values[0].fields && values[0].fields["category"] == JStr("test")
  {
    var c := ClientAddBreadcrumb(TestClient(), bcTimestamp, Some("Test breadcrumb"), Some("test"), Info,
                                 Some(map["key" := JStr("value")]));
    assert c.scope.breadcrumbs == [Breadcrumb(bcTimestamp, Some("Test breadcrumb"), Some("test"), Info, Some(map["key" := JStr("value")]))];
    CaptureSendsSnapshot(c.options, c.scope, MessageCapture("Test", DefaultMessageLevel), eventId, timestamp, draw, []);
  }

  /** With `sample_rate=0.0` nothing reaches the transport, whatever the draw. */
  lemma SampleRateZeroScenario(eventId: string, timestamp: string, draw: real)
    requires eventId != "" && 0.0 <= draw < 1.0
    ensures var c := NewClient(DefaultOptions(Dsn).(sampleRate := 0.0));
      var r := CaptureMessage(c, "Test", DefaultMessageLevel, eventId, timestamp, draw);
      r.0 == "" && r.1.transport.sent == []
  {
  }

  /** The hook of the callback test: adds the tag `custom = "added"`. The
      test's hook would raise on a payload without `tags`; the `else` branch
      stands in for that case, which never arises here because `ToDict`
      always writes `tags` (`Events.ToDictFields`). */
  function AddCustomTag(event: Payload): (r: Option<Payload>)
    ensures r.Some?
    ensures "tags" in event && event["tags"].JObj? ==>
      && "tags" in r.value && r.value["tags"].JObj? && r.value["tags"].fields == event["tags"].fields["custom" := JStr("added")]
      && r.value.Keys == event.Keys
      && forall k :: k in event && k != "tags" ==> r.value[k] == event[k]
  {
    if "tags" in event && event["tags"].JObj? then
      Some(event["tags" := JObj(event["tags"].fields["custom" := JStr("added")])])
    else
      Some(event)
  }

  lemma BeforeSendCallbackScenario(eventId: string, timestamp: string, draw: real)
    requires eventId != "" && 0.0 <= draw < 1.0
    ensures var r := CaptureMessage(HookedClient(AddCustomTag), "Test", DefaultMessageLevel, eventId, timestamp, draw);
      && |r.1.transport.sent| == 1
      && var p := r.1.transport.sent[0];
      && "tags" in p && p["tags"].JObj?
      && "custom" in p["tags"].fields && p["tags"].fields["custom"] == JStr("added")
  {
    var c := HookedClient(AddCustomTag);
    ToDictFields(BuildEvent(c.options, c.scope, MessageCapture("Test", DefaultMessageLevel), eventId, timestamp));
  }

  /** The hook of the drop test: vetoes every event. */
  function DropAll(event: Payload): (r: Option<Payload>)
    ensures r.None?
  {
    None
  }

  lemma BeforeSendDropScenario(eventId: string, timestamp: string, draw: real)
    requires eventId != "" && 0.0 <= draw < 1.0
    ensures var r := CaptureMessage(HookedClient(DropAll), "Test", DefaultMessageLevel, eventId, timestamp, draw);
      r.0 == "" && r.1.transport.sent == []
  {
  }

  lemma FlushAndCloseScenario()
    ensures Flush(TestClient()).transport.flushed
    ensures Close(TestClient()).transport.closed
  {
  }

  /** `Event(level=WARNING, message="Test warning", tags={"key": "value"}).to_dict()`
      echoes the id and carries "warning", the message and the tag. */
  lemma EventToDictScenario(eventId: string, timestamp: string)
    ensures var e := Event(eventId, timestamp, Warning, Some("Test warning"), None, None, None, None,
                           map["key" := "value"], map[], []);
      var d := ToDict(e);
      && "event_id" in d && d["event_id"] == JStr(eventId)
      && "level" in d && d["level"] == JStr("warning")
      && "message" in d && d["message"] == JStr("Test warning")
      && "tags" in d && d["tags"].JObj? && "key" in d["tags"].fields && d["tags"].fields["key"] == JStr("value")
  {
    var e := Event(eventId, timestamp, Warning, Some("Test warning"), None, None, None, None,
                   map["key" := "value"], map[], []);
    ToDictFields(e);
  }

  /** `RuntimeError("Runtime error")` serialises with its type, value and a
      `stacktrace.frames` entry. */
  lemma ExceptionToDictScenario(frames: seq<Frame>)
    ensures var j := EncodeException(ExceptionInfo("RuntimeError", "Runtime error", "builtins", frames));
      && j.JObj?
      && j.fields["type"] == JStr("RuntimeError") && j.fields["value"] == JStr("Runtime error")
      && "stacktrace" in j.fields && j.fields["stacktrace"].JObj? && "frames" in j.fields["stacktrace"].fields
  {
  }

  lemma ScopeCreationScenario()
    ensures var s := NewScope(DefaultMaxBreadcrumbs);
      s.user.None? && s.tags == map[] && s.breadcrumbs == []
  {
  }

  lemma ScopeSetUserScenario()
    ensures var s := SetUser(NewScope(DefaultMaxBreadcrumbs), map["id" := JStr("123"), "email" := JStr("test@example.com")]);
      && s.user.Some?
      && "id" in s.user.value && s.user.value["id"] == JStr("123")
      && "email" in s.user.value && s.user.value["email"] == JStr("test@example.com")
  {
  }

  lemma ScopeSetTagsScenario()
    ensures var s := SetTags(SetTag(NewScope(DefaultMaxBreadcrumbs), "key", "value"), map["foo" := "bar"]);
      "key" in s.tags && s.tags["key"] == "value" && "foo" in s.tags && s.tags["foo"] == "bar"
  {
  }

  lemma ScopeAddBreadcrumbScenario(timestamp: string)
    ensures var s := AddBreadcrumb(NewScope(DefaultMaxBreadcrumbs), timestamp, Some("Test"), Some("test"), DefaultBreadcrumbLevel, None);
      |s.breadcrumbs| == 1 && s.breadcrumbs[0].message == Some("Test") && s.breadcrumbs[0].category == Some("test")
  {
  }

  /** "Breadcrumb i" for a single digit `i`. */
  function Numbered(i: nat): string
    requires i < 10
  {
    "Breadcrumb " + [('0' as int + i) as char]
  }

  /** Ten breadcrumbs "Breadcrumb 0" .. "Breadcrumb 9" into a scope of
      capacity 5 leave five, the first being "Breadcrumb 5". */
  lemma ScopeMaxBreadcrumbsScenario(timestamp: string)
    ensures var bs := seq(10, i requires 0 <= i < 10 => Breadcrumb(timestamp, Some(Numbered(i)), None, DefaultBreadcrumbLevel, None));
      var s := AddBreadcrumbs(NewScope(5), bs);
      |s.breadcrumbs| == 5 && s.breadcrumbs[0].message == Some("Breadcrumb 5")
  {
    var bs := seq(10, i requires 0 <= i < 10 => Breadcrumb(timestamp, Some(Numbered(i)), None, DefaultBreadcrumbLevel, None));
    FirstRetainedBreadcrumb(5, bs);
    assert bs[5].message == Some(Numbered(5));
    assert ('0' as int + 5) as char == '5';
    assert Numbered(5) == "Breadcrumb " + ['5'];
    assert "Breadcrumb " + ['5'] == "Breadcrumb 5";
    var s := AddBreadcrumbs(NewScope(5), bs);
    assert |bs| == 10;
    assert s.breadcrumbs[0] == bs[5];
  }

  lemma ScopeCloneScenario()
    ensures var s := SetTag(SetUser(NewScope(DefaultMaxBreadcrumbs), map["id" := JStr("123")]), "key", "value");
      var c := Clone(s);
      && c.user.Some? && "id" in c.user.value && c.user.value["id"] == JStr("123")
      && "key" in c.tags && c.tags["key"] == "value"
  {
  }

  lemma ScopeClearScenario(timestamp: string)
    ensures var s := AddBreadcrumb(SetTag(SetUser(NewScope(DefaultMaxBreadcrumbs), map["id" := JStr("123")]), "key", "value"),
                                   timestamp, Some("Test"), None, DefaultBreadcrumbLevel, None);
      var r := Clear(s);
      r.user.None? && r.tags == map[] && r.breadcrumbs == []
  {
  }
}
