# TIG Advisor: channel listener setup, modelled in Dafny

TIG Advisor is a Slack app. A user picks a channel. The "Setup Channel
Listener" function then does three things in order:

1. It stores an alert-routing record `{id, channel, user_to_alert}` in the
   app datastore.
2. It lists the app's triggers and checks whether a matching one already
   exists for the "Send Alert" workflow on that channel.
3. It creates an event trigger on the channel if none matched.

Each of the three platform calls can fail. A failed put or create, or a
failed list with a non-empty error, ends the invocation with an error string
that has a fixed prefix. A failed list whose error is the empty string does
not end it (see below).

The model has two modules:

- `SlackApi` (`slack_api.dfy`) is an in-memory stand-in for the Slack client.
  The class `Client` holds the datastore records, the trigger registry and a
  log of the calls made. Its fixed fault plan decides, per endpoint, whether
  a call fails and with which error. A put replaces the record with the same
  id or appends a new one. A create always appends. `NewUuid` stands for
  `crypto.randomUUID()`: it returns an id that no stored record carries.
- `SetupChannelListener` (`setup_channel_listener.dfy`) holds the function
  itself:
  - `IsListenerTrigger` and `MatchingTriggers` are the three-part filter.
  - `FindTIGMessageSentTrigger` and `SaveTIGMessageSentTrigger` are the two
    helper functions of the source.
  - `ListenerSetupFunction` is the default handler.
  - `Setup` gives the platform state and the response after one invocation,
    as a function of the state before it. The handler is proved to produce
    exactly `Setup(..., UserJoinedChannel)`, which is the code as written.
    The lemmas then state the outcome on each path and over two invocations
    in a row.

The model follows the code as written, including where the code contradicts
its own intent:

- The existence check compares event types against
  `"slack#/events/user_joined_channel"` (`functions/setup_channel_listener.ts:90`).
- The created trigger listens to `"slack#/events/message_posted"` (line 116).
  A trigger the function created therefore never counts as existing, and
  repeated registrations for a channel create one trigger each (see
  Findings).
- The intent is `message_posted` throughout, by the source's own text. The
  two helpers are named `findTIGMessageSentTrigger` and
  `saveTIGMessageSentTrigger` (lines 75 and 103). The trigger is named "TIG
  Announcement Was Sent" and described as "Triggered when a message
  containing 'TIG' is sent in the channel" (lines 111-113). The setup
  workflow describes the function as creating a trigger "to listen for
  whenever a message is posted in the specified channel"
  (`workflows/setup_channel_listener.ts:51-56`).
- The comments at lines 57, 71-73, 85-86 and 99-101 still speak of
  `user_joined_channel` triggers and a "Send Welcome Message" workflow. They
  are stale wording from the welcome-message code the file was adapted from:
  no workflow of that name exists in the app, so they do not support line 90.
- `user_to_alert` is optional in the function's input schema (only `channel`
  is required, lines 17-29). It is therefore an `Option` in the record.
- The handler tests `triggers.error` for JavaScript truthiness (line 53). An
  empty error string from a failed list counts as no error. The handler then
  reads `exists` as undefined and goes on to create a trigger.

## Model

| member | source | states |
|---|---|---|
| `SetupChannelListener.Setup` | functions/setup_channel_listener.ts:32-69 | The outcome of one invocation: the state after it and the response. Ids stay distinct. The log keeps the old calls and adds one to three calls, the first a put of a record for the channel. The registry is unchanged or gains exactly the TIG trigger. A success always stores a record, and with a failing create it adds no trigger. |
| `SetupChannelListener.TIGTriggerSpec` | functions/setup_channel_listener.ts:107-122 | The create argument: its workflow reference resolves to `send_alert_workflow`, its `channel_ids` is `[channel]` and its only input is `channel = channel`. |
| `SetupChannelListener.IsListenerTrigger` | functions/setup_channel_listener.ts:88-91 | The three-part test: the workflow callback id is `send_alert_workflow`, the event type is the given one, and `channel_ids` contains the channel. |
| `SetupChannelListener.AnyListenerTrigger` | functions/setup_channel_listener.ts:95 | `exists`: the filtered list is not empty (characterised by `AnyListenerTriggerIff`). |
| `SetupChannelListener.Truthy` | functions/setup_channel_listener.ts:53 | JavaScript truthiness of `triggers.error`: defined and not the empty string. |
| `SlackApi.Upsert` | functions/setup_channel_listener.ts:40-45 | A datastore put keeps ids distinct and stores the item. Every other record is kept unless it has the item's id. When no record has the item's id, the put appends the item. |
| `SlackApi.NewUuid` | functions/setup_channel_listener.ts:37 | The generated id differs from the id of every stored record. |
| `SlackApi.WorkflowRefRoundTrip` | functions/setup_channel_listener.ts:114 | The reference `#/workflows/<callback_id>` resolves back to `<callback_id>`. This is how a created trigger's `workflow.callback_id` is obtained. |
| `SlackApi.Client.constructor` | functions/setup_channel_listener.ts:34 | The client starts from the given records, triggers and fault plan, with an empty call log. |
| `SlackApi.Client.DatastorePut` | functions/setup_channel_listener.ts:40-45 | The put is logged. It succeeds exactly when the fault plan has no put error. On success the records become the upsert of the item; on failure they are unchanged. Triggers are never touched. |
| `SlackApi.Client.TriggersList` | functions/setup_channel_listener.ts:80 | The list is logged and returns every registered trigger, or the fault plan's list error. Nothing else changes. |
| `SlackApi.Client.TriggersCreate` | functions/setup_channel_listener.ts:107-122 | The create is logged. On success exactly the trigger built from the spec is appended, with no deduplication; on failure the registry is unchanged. Records are never touched. |
| `SetupChannelListener.MatchingTriggers` | functions/setup_channel_listener.ts:87-92 | A trigger is in the filtered list iff it is in the listed triggers and passes all three tests: workflow callback id, event type, channel in `channel_ids`. |
| `SetupChannelListener.AnyListenerTriggerIff` | functions/setup_channel_listener.ts:87-95 | `exists` is true iff some listed trigger passes all three tests (both directions). |
| `SetupChannelListener.AnyListenerTriggerAppend` | functions/setup_channel_listener.ts:87-95 | After one more trigger is registered, `exists` is true iff it was true before or the new trigger passes the test. |
| `SetupChannelListener.TIGTriggerShape` | functions/setup_channel_listener.ts:107-122 | The created trigger has type `event`, workflow `#/workflows/send_alert_workflow` (callback id `send_alert_workflow`), event type `slack#/events/message_posted`, `channel_ids == [channel]` and the single input `channel = channel`. |
| `SetupChannelListener.CreatedTriggerNeverMatches` | functions/setup_channel_listener.ts:90-116 | A created trigger passes the workflow and channel tests but never the event-type test as written. It would pass a test on `message_posted`. |
| `SetupChannelListener.FindTIGMessageSentTrigger` | functions/setup_channel_listener.ts:75-97 | Exactly one list call. On failure it returns `{error}` with no `exists`. Otherwise it returns `{exists}`, where `exists` is the existence check over the listed triggers. Records and triggers are unchanged. |
| `SetupChannelListener.SaveTIGMessageSentTrigger` | functions/setup_channel_listener.ts:103-128 | Exactly one create call, with the TIG trigger spec. `ok` holds iff the create succeeded, and `error` is the create error. On success exactly that trigger is appended; otherwise the registry is unchanged. |
| `SetupChannelListener.ListenerSetupFunction` | functions/setup_channel_listener.ts:32-69 | The handler keeps the datastore keyed by id. Its final platform state and response are exactly those of `Setup` with the check as written. The lemmas below state what that is on each path. |
| `SetupChannelListener.PutFailureStopsEarly` | functions/setup_channel_listener.ts:40-49 | If the put fails, the response is `Failed to save user to alert: <error>`. The put is the only call made, and records and triggers are unchanged. |
| `SetupChannelListener.RecordAppendedPastPut` | functions/setup_channel_listener.ts:37-64 | Once the put succeeds, whatever happens next, exactly one record is appended. It has a fresh id, the channel and the user. Ids stay distinct, and earlier records are kept even when they share the channel. |
| `SetupChannelListener.SetupAppendsRecord` | functions/setup_channel_listener.ts:40-45 | Past a successful put, the records are the old ones followed by the item that was put. |
| `SetupChannelListener.LookupFailureStopsEarly` | functions/setup_channel_listener.ts:52-55 | If the list fails with a non-empty error, the response is `Failed to lookup existing triggers: <error>`. No create call is made, and the registry is unchanged. |
| `SetupChannelListener.EmptyLookupErrorFallsThrough` | functions/setup_channel_listener.ts:52-59 | If the list fails with the empty error string, the handler goes on and creates the trigger. It then answers `{outputs: {}}`. |
| `SetupChannelListener.ExistingTriggerSkipsCreate` | functions/setup_channel_listener.ts:57-67 | If some listed trigger matches, no create call is made, the registry is unchanged and the response is `{outputs: {}}`. |
| `SetupChannelListener.MissingTriggerIsCreated` | functions/setup_channel_listener.ts:57-67 | If no listed trigger matches and the create succeeds, exactly one trigger of the TIG shape is appended, after a create call with the TIG spec. The response is `{outputs: {}}`. |
| `SetupChannelListener.CreateFailureKeepsRecord` | functions/setup_channel_listener.ts:59-64 | If the create fails, the response is `Failed to create trigger: <error>`. The registry is unchanged and the new record stays. |
| `SetupChannelListener.SetupNeverSatisfiesItsOwnCheck` | functions/setup_channel_listener.ts:90-116 | As written, a fault-free invocation never changes whether the existence check finds a trigger, for any channel. |
| `SetupChannelListener.RepeatedSetupDuplicatesTrigger` | functions/setup_channel_listener.ts:51-65 | As written, two fault-free invocations on a channel with no matching trigger both succeed. Together they append two identical triggers. |
| `SetupChannelListener.RepeatedSetupAccumulatesRecords` | functions/setup_channel_listener.ts:37-45 | Two fault-free invocations on one channel append two records for that channel, with the two users, and their ids differ. |
| `SetupChannelListener.CorrectedSetupIsIdempotent` | functions/setup_channel_listener.ts:87-95 | With the check corrected to `message_posted`, a second fault-free invocation creates nothing. Exactly one trigger is added in all. |

## Findings

| source | as written | input that shows it | evidently intended | confidence | as-written member | corrected member |
|---|---|---|---|---|---|---|
| functions/setup_channel_listener.ts:90 | The existence check looks for `slack#/events/user_joined_channel` triggers, but line 116 creates `slack#/events/message_posted` triggers. A trigger this function created never counts as existing, so every registration for a channel creates another one. | Two fault-free registrations for channel `C1` with no trigger registered beforehand: after them the registry holds two identical TIG triggers on `C1`. | The check compares against `slack#/events/message_posted`. A second registration then finds the first trigger and creates nothing. | high (not executed) | `SetupChannelListener.RepeatedSetupDuplicatesTrigger` | `SetupChannelListener.CorrectedSetupIsIdempotent` |

The handler `ListenerSetupFunction` models the code as written. The
corrected behaviour is `Setup` with `MessagePosted` as the filter's event type.

## Left out

- `workflows/setup_channel_listener.ts`: the form and the confirmation DM only pass fields into the function and contain no logic.
- `workflows/send_alert.ts` and the dispatch step: its function `functions/send_alert.ts` is not part of this model.
- `manifest.ts`: static app configuration.
- `datastores/users_to_alert.ts` is not part of this model. The record schema is exactly the `item` the function builds.
- The Slack transport, `async`/`await` and the response objects are left out. Each call either succeeds or fails with the error string the client's fault plan holds for that endpoint. A failing endpoint fails on every call to it.
- `crypto.randomUUID()` is deterministic here. `NewUuid` returns a string longer than every stored id, not a random UUID in the UUID format.
- The platform resolves a `#/workflows/<callback_id>` reference to the workflow with that callback id. Trigger ids and other fields the platform adds to a listed trigger are left out.
- A platform error that is `undefined` and printed as "undefined" in the message is left out: every failure carries an error string.
- Concurrent registrations and the list-then-create race are left out. Every invocation here runs alone.
- Matching messages that contain "TIG" is left out: the created trigger sets no message filter, so the function implements no such matching.
