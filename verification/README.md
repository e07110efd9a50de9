# Statly Observe client core, modelled in Dafny

This project models the capture core of the Statly Observe Python SDK:

- the **Scope**: ambient context made of an optional user, a tag mapping, an
  extra-data mapping and a bounded breadcrumb history;
- the **Event** record and its dictionary form (`to_dict`);
- the **capture pipeline** of `StatlyClient`:
  1. build an event from the request and a scope snapshot;
  2. sample it;
  3. run `before_send`;
  4. hand the result to the transport.

The source of the package `statly_observe` and of the modules the tests
import (`statly_observe.event`, `statly_observe.scope`,
`statly_observe.transport`) is not available. The `Scopes`, `Events` and
`Clients` modules model `statly_observe.scope.Scope`,
`statly_observe.event.Event` and `StatlyClient` as `tests/test_client.py`
pins them down. Where the tests are silent, the model makes the choices
below, each with its reason.

Modules, leaves first:

| file | module | contents |
|---|---|---|
| `wrappers.dfy` | `Wrappers` | `Option`, standing for Python's `None` |
| `json.dfy` | `Json` | the JSON-like values of a payload; string-map and list codecs with their round trips |
| `levels.dfy` | `Levels` | `EventLevel` and its lowercase wire name |
| `breadcrumbs.dfy` | `Breadcrumbs` | the breadcrumb record; the ring buffer (`Push`) against its reference meaning (`LastN`) |
| `events.dfy` | `Events` | frames, exception info, the event, `to_dict` (`ToDict`) and its inverse (`FromDict`) |
| `scope.dfy` | `Scopes` | the scope and its operations, as pure functions on an immutable value |
| `client.dfy` | `Clients` | options, the capture pipeline (`CaptureEvent`), the client with its mock transport |
| `scenarios.dfy` | `Scenarios` | each client, event and scope test case, replayed on the model |

Modelling choices:

- **Nondeterminism as parameters.** The event id, every timestamp, and the
  sampling draw are parameters, because the tests never fix them. The model
  assumes the draw is uniform in [0, 1) and that an injected id is non-empty.
  The tests only show that a successful capture returns a non-empty id.
- **Sample rate as a real.** `sample_rate` is a Dafny `real`. The model keeps an
  event exactly when the draw is below the rate. With a draw in [0, 1), a rate
  of 0.0 drops every event, as the sampling test expects, and a rate of 1.0
  drops none.
- **Hook.** `before_send` is a total function `Payload -> Option<Payload>`.
  `None` is the veto. Otherwise the hook's output is exactly what is sent. The
  id returned to the caller is the built event's id. That is the id of the
  payload sent whenever the hook leaves `event_id` alone
  (`Clients.ReturnedIdMatchesSentEvent`).
- **Payload keys.** `event_id`, `timestamp`, `level`, `tags`, `extra` and
  `breadcrumbs` are always present. `message`, `exception`, `environment`,
  `release` and `user` are present only when set. The tests require `tags` to
  be present even when empty: the callback test at lines 154-156 writes
  `event["tags"]["custom"]` on an event that has no tags.
- **Exceptions.** `exception` is `{"values": [...]}`. Each entry has `type`,
  `value`, `module` and `stacktrace.frames`, and a capture sends exactly one
  entry.
- **Scope as a value.** A scope is an immutable value. Every mutator returns
  the new scope, so a clone cannot share state with its original.
- **`set_user` and `set_extra`.** `set_user` replaces the whole user mapping,
  because the tests only ever set it once. `set_extra(key, value)` has no test
  case. The model gives it the same overwrite rule as `set_tag`, since both
  are keyed context.
- **Ring-buffer eviction.** Appending to a full history drops the oldest entry,
  which matches the capacity test. At capacity 0 the model keeps nothing. The
  tests do not cover that case.
- **Default levels and capacity.** `capture_message` defaults to level `info`
  (`Clients.DefaultMessageLevel`), and so does `add_breadcrumb`
  (`Scopes.DefaultBreadcrumbLevel`). The model assumes a default breadcrumb
  capacity of 100 (`Scopes.DefaultMaxBreadcrumbs`); no test depends on that
  number.
- **Scope invariant.** A scope's history never exceeds its capacity
  (`Scope.Valid`). Every scope built by `NewScope` and then changed by the
  scope operations keeps this invariant (`Scopes.Run`). So the operations that
  need it, such as `AddBreadcrumb`, require it of their input.

## Model

| member | source | states |
|---|---|---|
| Levels.Name | tests/test_client.py:238 | a level serialises to a non-empty lowercase word |
| Levels.ParseName | tests/test_client.py:237-238 | reading a level's name back gives the same level, so the wire name identifies the level |
| Levels.NameInjective | tests/test_client.py:223-238 | two different levels never share a wire name |
| Breadcrumbs.Push | tests/test_client.py:310-318 | one append to a history of capacity `cap` keeps at most `cap` entries, and its result is the last `cap` entries of the old history plus the new one |
| Breadcrumbs.PushAllKeepsMostRecent | tests/test_client.py:310-318 | after any sequence of appends, the history is exactly the last `cap` entries ever added, oldest first |
| Breadcrumbs.LastNConcat | tests/test_client.py:314-318 | trimming to the last `cap` entries before appending more does not change which entries are last afterwards |
| Breadcrumbs.EncodeBreadcrumb | tests/test_client.py:132-135 | a serialised breadcrumb carries its message and category exactly when they were given |
| Breadcrumbs.DecodeEncodeBreadcrumbs | tests/test_client.py:132-135 | the serialised history reads back as the same breadcrumbs in the same order |
| Events.EncodeException | tests/test_client.py:258-270 | a serialised exception has `type`, `value` and a `stacktrace` holding `frames` |
| Events.DecodeEncodeException | tests/test_client.py:265-270 | type, value, module and every frame can be read back from an exception's dictionary |
| Events.ToDict | tests/test_client.py:235 | `to_dict` writes only the known top-level keys; `event_id`, `timestamp`, `level` (the lowercase name), `tags`, `extra` and `breadcrumbs` always, with the event's values; `message`, `environment`, `release`, `user` and `exception` exactly when the event sets them, with their values |
| Events.ToDictFields | tests/test_client.py:227-240 | `to_dict` echoes `event_id`, gives `level` as its lowercase name, and carries message, user, tags, exception and breadcrumbs as set |
| Events.FromDictToDict | tests/test_client.py:214-240 | `to_dict` loses nothing: every field of any event, with its literal value, is read back from the dictionary |
| Scopes.NewScope | tests/test_client.py:276-282 | a new scope has no user, no tags, no extra, no breadcrumbs, and the given capacity |
| Scopes.SetUser | tests/test_client.py:284-290 | the user becomes exactly the given fields, and nothing else changes |
| Scopes.SetTag | tests/test_client.py:292-299 | the key gets the value, every other tag is kept, and nothing else changes |
| Scopes.SetTags | tests/test_client.py:292-299 | the tags become the union: each given pair wins, every other existing tag is kept |
| Scopes.AddBreadcrumb | tests/test_client.py:301-308 | the new breadcrumb, with the given message and category, is last; the history stays within capacity; user, tags and extra are unchanged |
| Scopes.Clone | tests/test_client.py:320-330 | the copy has the original's user, tags, extra, breadcrumbs and capacity |
| Scopes.Clear | tests/test_client.py:332-343 | the user is absent, tags, extra and breadcrumbs are empty, and the capacity is kept |
| Scopes.Run | tests/test_client.py:310-318 | any sequence of scope operations keeps the history within capacity and keeps the capacity |
| Scopes.ClearForgetsHistory | tests/test_client.py:332-343 | whatever operations came before, clearing gives a fresh scope of the same capacity |
| Scopes.CloneBehavesAsOriginal | tests/test_client.py:320-330 | a clone goes through any later operations exactly as the original would |
| Scopes.SetTagThenSetTags | tests/test_client.py:292-299 | after `set_tag(k, v)` then `set_tags(m)`, `k` is still present (with `m[k]` if `m` overrides it) and every pair of `m` is present |
| Scopes.SetTagsIsSetTagEach | tests/test_client.py:106-113 | `set_tags(m)` equals `set_tag` applied to each pair of `m`, in any order |
| Scopes.AddBreadcrumbsIsPushAll | tests/test_client.py:314-315 | repeated `add_breadcrumb` calls only append to the bounded history |
| Scopes.AddBreadcrumbsKeepsMostRecent | tests/test_client.py:310-318 | after n additions the scope holds the last `cap` breadcrumbs, oldest first; its length is `min(old + n, cap)`; user, tags and extra are unchanged |
| Scopes.FirstRetainedBreadcrumb | tests/test_client.py:310-318 | from an empty scope, after at least `cap` additions, the first breadcrumb kept is the one added `cap` from the end |
| Clients.Sampled | tests/test_client.py:137-148 | an event is kept exactly when the draw is below the rate; a rate of 1 or more always keeps, and a rate of 0 or less always drops |
| Clients.CaptureEvent | tests/test_client.py:137-184 | a capture returns the empty id and leaves the log alone iff sampling or the hook dropped the event; otherwise it appends exactly the hook's output and returns the event id; a rate of 0 drops every event; rate 1 without a hook sends `to_dict` of the built event |
| Clients.CaptureSendsSnapshot | tests/test_client.py:83-135 | an unhooked, kept payload reads back as an event with the given id, the request's level and message or exception, and the scope's user, tags, extra and breadcrumbs |
| Clients.ReturnedIdMatchesSentEvent | tests/test_client.py:150-167 | when a capture is kept and the hook (if any) does not rewrite `event_id`, the sent payload's `event_id` is the id returned to the caller |
| Clients.CaptureExceptionSendsOneValue | tests/test_client.py:50-66 | a kept exception capture is sent at level `error` with one `exception.values` entry carrying the exception's type and value |
| Clients.NewClient | tests/test_client.py:36-48 | a new client keeps its configuration and starts with an empty root scope of the configured capacity and an empty transport |
| Clients.ClientSetUser | tests/test_client.py:91 | the client's `set_user` applies to its root scope and touches neither the configuration nor the transport |
| Clients.ClientSetTag | tests/test_client.py:106 | the client's `set_tag` applies to its root scope and touches neither the configuration nor the transport |
| Clients.ClientSetTags | tests/test_client.py:107 | the client's `set_tags` applies to its root scope and touches neither the configuration nor the transport |
| Clients.ClientAddBreadcrumb | tests/test_client.py:123-128 | the client's `add_breadcrumb` applies to its root scope and touches neither the configuration nor the transport |
| Clients.Capture | tests/test_client.py:58-81 | a client capture runs the pipeline on the root scope; the configuration, the scope and the transport's flushed/closed flags are unchanged, so only the transport log may grow |
| Clients.CaptureMessage | tests/test_client.py:68-81 | the outcome (returned id and new log) is the pipeline's, `Clients.CaptureEvent`, on the root scope, so sampling and `before_send` decide it; the id is empty exactly when nothing was sent; a kept, unhooked message is sent with its text and its level's name; configuration, scope and flushed/closed flags are unchanged |
| Clients.CaptureException | tests/test_client.py:50-66 | the outcome (returned id and new log) is the pipeline's, `Clients.CaptureEvent`, on the root scope, so sampling and `before_send` decide it; the id is empty exactly when nothing was sent; a kept, unhooked exception is sent at level `error` with one `exception.values` entry; configuration, scope and flushed/closed flags are unchanged |
| Clients.Flush | tests/test_client.py:186-196 | `flush` reaches the transport and leaves the configuration, the sent log and the scope untouched, so a valid client stays valid |
| Clients.Close | tests/test_client.py:198-208 | `close` reaches the transport and leaves the configuration, the sent log and the scope untouched, so a valid client stays valid |
| Clients.CloseIdempotent | tests/test_client.py:29-30 | closing twice leaves the transport as closing once does |
| Scenarios.InitKeepsConfiguration | tests/test_client.py:36-48 | the client keeps the DSN, environment and release it was built with |
| Scenarios.CaptureExceptionScenario | tests/test_client.py:50-66 | capturing `ValueError("Test error")` returns a non-empty id and sends one event at level "error" with one exception value of type "ValueError" |
| Scenarios.CaptureMessageScenario | tests/test_client.py:68-81 | capturing "Test message" at warning sends one event with that message and level "warning" |
| Scenarios.SetUserScenario | tests/test_client.py:83-96 | the user's id and email reach the sent event |
| Scenarios.SetTagsScenario | tests/test_client.py:98-113 | `set_tag` then `set_tags` leaves all three tags on the sent event |
| Scenarios.AddBreadcrumbScenario | tests/test_client.py:115-135 | the sent event has one breadcrumb with the given message and category |
| Scenarios.SampleRateZeroScenario | tests/test_client.py:137-148 | with sample rate 0.0 the capture returns "" and nothing is sent, whatever the draw |
| Scenarios.AddCustomTag | tests/test_client.py:154-156 | the test's hook returns the same payload with tag `custom` set to "added": same keys, every key other than `tags` unchanged |
| Scenarios.BeforeSendCallbackScenario | tests/test_client.py:150-167 | the tag added by the hook is on the sent event |
| Scenarios.DropAll | tests/test_client.py:173-174 | the drop test's hook vetoes every payload |
| Scenarios.BeforeSendDropScenario | tests/test_client.py:169-184 | a hook that returns `None` makes the capture return "" and send nothing |
| Scenarios.FlushAndCloseScenario | tests/test_client.py:186-208 | `flush` marks the transport flushed and `close` marks it closed |
| Scenarios.EventToDictScenario | tests/test_client.py:227-240 | the warning event serialises with its id, "warning", its message and its tag |
| Scenarios.ExceptionToDictScenario | tests/test_client.py:258-270 | `RuntimeError("Runtime error")` serialises with its type, its value and `stacktrace.frames` |
| Scenarios.ScopeCreationScenario | tests/test_client.py:276-282 | a new scope has no user, no tags and no breadcrumbs |
| Scenarios.ScopeSetUserScenario | tests/test_client.py:284-290 | the scope's user holds the given id and email |
| Scenarios.ScopeSetTagsScenario | tests/test_client.py:292-299 | both the tag set before and the merged tag are present |
| Scenarios.ScopeAddBreadcrumbScenario | tests/test_client.py:301-308 | one breadcrumb with message "Test" and category "test" |
| Scenarios.ScopeMaxBreadcrumbsScenario | tests/test_client.py:310-318 | ten breadcrumbs into capacity 5 leave five, the first being "Breadcrumb 5" |
| Scenarios.ScopeCloneScenario | tests/test_client.py:320-330 | the clone has the user id and the tag |
| Scenarios.ScopeClearScenario | tests/test_client.py:332-343 | after `clear`, the user is absent and tags and breadcrumbs are empty |

## Left out

- Exception extraction (`extract_exception_info`). It reads Python tracebacks, frames and `__module__`. Here an `ExceptionInfo` arrives already extracted.
- Chained exception causes. A capture sends one `exception.values` entry.
- The depth bound on walking cause chains. It belongs to the extraction, which is left out.
- `before_send` raising an exception. A Dafny function cannot raise, so the hook is total and the degrade-on-error path is not modelled.
- Random numbers, UUIDs and clocks. They are parameters: the sampling draw, the event id and the timestamps.
- Floating point. `sample_rate` is an exact real, so rounding of the float comparison is not modelled.
- The real transport: HTTP, batching, retry and DSN parsing. The transport is the test's mock, a log of sent payloads plus `flushed` and `closed` flags.
- The global `Statly` singleton and process-wide init/shutdown hooks.
- In-place edits by `before_send`: the payload is assumed to share no mutable mapping with the event or the scope, so the hook's edit (tests/test_client.py:155) cannot reach the scope. Whether the SDK's `to_dict` copies the scope's tags is not visible, so `Clients.Capture`, `Clients.CaptureMessage` and `Clients.CaptureException` leave the scope unchanged by construction of the value semantics.
- Clients.CaptureEvent: a hook that rewrites `event_id` gets the built event's id returned while a different id is sent. The model promises matching ids only for hooks that keep `event_id` (`Clients.ReturnedIdMatchesSentEvent`).
- String levels. `capture_message(level="warning")` and `add_breadcrumb(level="info")` take level names. The model takes the `Level` enum directly. Its name mapping is `Levels.Name` and `Levels.Parse`. What the SDK does with an unknown name such as `"critical"` is not visible, so it is not modelled.
- The default breadcrumb capacity of 100 is an assumption of the model, not a fact about the SDK.
- The uniform draw in [0, 1) is an assumption about the SDK's random source.
- Capacity 0 keeping nothing is an assumption. A list trim such as `bcs[-cap:]` would keep everything at capacity 0.
- Negative `max_breadcrumbs`. The capacity is a `nat`, so what a negative capacity would do is not modelled.
- Clients.Flush: does not model the timeout argument, which the mock transport ignores.
- Clients.Close: does not model the timeout argument, which the mock transport ignores.
- Locking and thread-safety around the scope. The model is sequential, and a scope is a value, so a snapshot cannot be torn.
- Per-call tag and extra overrides on a capture. The capture calls exercised here take none, so an event's tags and extra are the scope's.
- `Event.timestamp` and breadcrumb timestamps are opaque strings. Their format is not modelled.
