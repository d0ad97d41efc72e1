/**
 * The "Setup Channel Listener" function: it records which user to alert for
 * a channel, looks for an existing trigger of the "Send Alert" workflow on
 * that channel and creates one when none is found.
 *
 * `Setup` states the whole outcome of one invocation as a function of the
 * platform state before it, the fault plan and the inputs; the handler
 * method `ListenerSetupFunction` is proved to produce exactly that outcome,
 * and the lemmas below state what the outcome is on each path.
 *
 * `Setup` takes as a parameter the event type its existence check compares
 * against. The code as written compares against "user_joined_channel"
 * (`UserJoinedChannel`) while the trigger it creates listens to
 * "message_posted"; `Setup(..., MessagePosted)` is the corrected check.
 */
module SetupChannelListener {

  import opened SlackApi

  const SendAlertWorkflowId := "send_alert_workflow"
  const UserJoinedChannel := "slack#/events/user_joined_channel"
  const MessagePosted := "slack#/events/message_posted"

  const SaveFailedPrefix := "Failed to save user to alert: "
  const LookupFailedPrefix := "Failed to lookup existing triggers: "
  const CreateFailedPrefix := "Failed to create trigger: "

  /** What `findTIGMessageSentTrigger` returns: `{error}` or `{exists}`. */
  datatype FindResult = FindResult(error: Option<string>, triggerExists: Option<bool>)

  /** What `saveTIGMessageSentTrigger` returns: `{ok, error?}`. */
  datatype SaveResult = SaveResult(ok: bool, error: Option<string>)

  /** What the handler returns: `{outputs: {}}` or `{error}`. */
  datatype Response = Outputs | Error(error: string)

  /** JavaScript truthiness of an optional string: defined and not empty. */
  predicate Truthy(s: Option<string>) {
    s.Some? && s.value != ""
  }

  /** The three-part test of the existence check, for a given event type. */
  predicate IsListenerTrigger(t: Trigger, channel: string, eventType: string) {
    && t.workflowCallbackId == SendAlertWorkflowId
    && t.eventType == eventType
    && channel in t.channelIds
  }

  /** `allTriggers.triggers.filter(...)`: the listed triggers that pass the test, in order. */
  function MatchingTriggers(ts: seq<Trigger>, channel: string, eventType: string): (r: seq<Trigger>)
    ensures |r| <= |ts|
    ensures forall t :: t in r <==> t in ts && IsListenerTrigger(t, channel, eventType)
  {
    if ts == [] then []
    else
      var rest := MatchingTriggers(ts[1..], channel, eventType);
      assert forall t :: t in ts <==> t == ts[0] || t in ts[1..];
      if IsListenerTrigger(ts[0], channel, eventType) then [ts[0]] + rest else rest
  }

  /** `exists`: the filtered list is not empty. */
  predicate AnyListenerTrigger(ts: seq<Trigger>, channel: string, eventType: string) {
    |MatchingTriggers(ts, channel, eventType)| > 0
  }

  lemma AnyListenerTriggerIff(ts: seq<Trigger>, channel: string, eventType: string)
    ensures AnyListenerTrigger(ts, channel, eventType)
        <==> exists i :: 0 <= i < |ts| && IsListenerTrigger(ts[i], channel, eventType)
  {
    var r := MatchingTriggers(ts, channel, eventType);
    if |r| > 0 {
      assert r[0] in r;
    }
  }

  /** Adding one trigger changes the check's answer only if that trigger passes the test. */
  lemma AnyListenerTriggerAppend(ts: seq<Trigger>, t: Trigger, channel: string, eventType: string)
    ensures AnyListenerTrigger(ts + [t], channel, eventType)
        <==> AnyListenerTrigger(ts, channel, eventType) || IsListenerTrigger(t, channel, eventType)
  {
    AnyListenerTriggerIff(ts, channel, eventType);
    AnyListenerTriggerIff(ts + [t], channel, eventType);
    var ts' := ts + [t];
    if AnyListenerTrigger(ts', channel, eventType) && !IsListenerTrigger(t, channel, eventType) {
      var i :| 0 <= i < |ts'| && IsListenerTrigger(ts'[i], channel, eventType);
      assert i < |ts| && ts[i] == ts'[i];
    }
    if AnyListenerTrigger(ts, channel, eventType) {
      var i :| 0 <= i < |ts| && IsListenerTrigger(ts[i], channel, eventType);
      assert ts'[i] == ts[i];
    }
    if IsListenerTrigger(t, channel, eventType) {
      assert ts'[|ts|] == t;
    }
  }

  /** The trigger `saveTIGMessageSentTrigger` asks the registry to create. */
  function TIGTriggerSpec(channel: string): (r: TriggerSpec)
    ensures ResolveWorkflow(r.workflow) == SendAlertWorkflowId
    ensures r.channelIds == [channel] && r.inputs.Keys == {"channel"} && r.inputs["channel"] == channel
  {
    WorkflowRefRoundTrip(SendAlertWorkflowId);
    TriggerSpec(
      "event",
      "TIG Announcement Was Sent",
      "Triggered when a message containing 'TIG' is sent in the channel",
      WorkflowRefPrefix + SendAlertWorkflowId,
      MessagePosted,
      [channel],
      map["channel" := channel])
  }

  /** The exact shape of the trigger that a successful create adds to the registry. */
  lemma TIGTriggerShape(channel: string)
    ensures TIGTriggerSpec(channel).workflow == "#/workflows/send_alert_workflow"
    ensures var t := CreatedTrigger(TIGTriggerSpec(channel));
      && t.triggerType == "event"
      && t.workflowCallbackId == "send_alert_workflow"
      && t.eventType == "slack#/events/message_posted"
      && t.channelIds == [channel]
      && t.inputs == map["channel" := channel]
  {
    WorkflowRefRoundTrip(SendAlertWorkflowId);
  }

  /** A created trigger passes every part of the existence check except the event type. */
  lemma CreatedTriggerNeverMatches(channel: string, queried: string)
    ensures var t := CreatedTrigger(TIGTriggerSpec(channel));
      && t.workflowCallbackId == SendAlertWorkflowId
      && channel in t.channelIds
      && !IsListenerTrigger(t, queried, UserJoinedChannel)
      && IsListenerTrigger(t, channel, MessagePosted)
  {
    TIGTriggerShape(channel);
  }

  /**
   * The outcome of one invocation of the handler: the platform state after
   * it and its response. `filterEvent` is the event type the existence check
   * compares against (`UserJoinedChannel` as written).
   */
  function Setup(w: Workspace, faults: Faults, channel: string, userToAlert: Option<string>,
                 filterEvent: string): (r: (Workspace, Response))
    requires DistinctIds(w.records)
    ensures DistinctIds(r.0.records)
    ensures |w.calls| < |r.0.calls| <= |w.calls| + 3 && r.0.calls[..|w.calls|] == w.calls
    ensures r.0.calls[|w.calls|].PutCall? && r.0.calls[|w.calls|].item.channel == channel
    ensures r.0.triggers == w.triggers || r.0.triggers == w.triggers + [CreatedTrigger(TIGTriggerSpec(channel))]
    ensures r.1.Outputs? ==> r.0.records != w.records && (faults.create.Some? ==> r.0.triggers == w.triggers)
  {
    var item := AlertRecord(NewUuid(w.records), channel, userToAlert);
    var attempted := w.(calls := w.calls + [PutCall(item)]);
    if faults.put.Some? then
      (attempted, Error(SaveFailedPrefix + faults.put.value))
    else
      var stored := attempted.(records := Upsert(w.records, item), calls := attempted.calls + [ListCall]);
      var lookup :=
        if faults.list.Some? then FindResult(faults.list, None)
        else FindResult(None, Some(AnyListenerTrigger(w.triggers, channel, filterEvent)));
      if Truthy(lookup.error) then
        (stored, Error(LookupFailedPrefix + lookup.error.value))
      else if lookup.triggerExists == Some(true) then
        (stored, Outputs)
      else
        var spec := TIGTriggerSpec(channel);
        var requested := stored.(calls := stored.calls + [CreateCall(spec)]);
        if faults.create.Some? then
          (requested, Error(CreateFailedPrefix + faults.create.value))
        else
          (requested.(triggers := w.triggers + [CreatedTrigger(spec)]), Outputs)
  }

  /** `findTIGMessageSentTrigger`: one list call, then the existence check. */
  method FindTIGMessageSentTrigger(client: Client, channel: string) returns (r: FindResult)
    modifies client
    ensures client.faults.list.Some? ==> r == FindResult(client.faults.list, None)
    ensures client.faults.list.None? ==>
      r == FindResult(None, Some(AnyListenerTrigger(client.triggers, channel, UserJoinedChannel)))
    ensures client.records == old(client.records) && client.triggers == old(client.triggers)
    ensures client.calls == old(client.calls) + [ListCall]
  {
    var allTriggers := client.TriggersList();
    if allTriggers.ListFailed? {
      return FindResult(Some(allTriggers.error), None);
    }
    var joinedTriggers := MatchingTriggers(allTriggers.triggers, channel, UserJoinedChannel);
    var triggerExists := |joinedTriggers| > 0;
    return FindResult(None, Some(triggerExists));
  }

  /** `saveTIGMessageSentTrigger`: one create call with the TIG trigger spec. */
  method SaveTIGMessageSentTrigger(client: Client, channel: string) returns (r: SaveResult)
    modifies client
    ensures r.ok <==> client.faults.create.None?
    ensures r.error == client.faults.create
    ensures client.triggers ==
      if r.ok then old(client.triggers) + [CreatedTrigger(TIGTriggerSpec(channel))] else old(client.triggers)
    ensures client.records == old(client.records)
    ensures client.calls == old(client.calls) + [CreateCall(TIGTriggerSpec(channel))]
  {
    var triggerResponse := client.TriggersCreate(TIGTriggerSpec(channel));
    if triggerResponse.Failed? {
      return SaveResult(false, Some(triggerResponse.error));
    }
    return SaveResult(true, None);
  }

  /** The default handler of the Setup Channel Listener function. */
  method ListenerSetupFunction(client: Client, channel: string, userToAlert: Option<string>)
    returns (response: Response)
    requires client.Valid()
    modifies client
    ensures client.Valid()
    ensures (client.State(), response)
         == Setup(old(client.State()), client.faults, channel, userToAlert, UserJoinedChannel)
  {
    var uuid := NewUuid(client.records);
    var putResponse := client.DatastorePut(AlertRecord(uuid, channel, userToAlert));
    if putResponse.Failed? {
      return Error(SaveFailedPrefix + putResponse.error);
    }
    var triggers := FindTIGMessageSentTrigger(client, channel);
    if Truthy(triggers.error) {
      return Error(LookupFailedPrefix + triggers.error.value);
    }
    if triggers.triggerExists != Some(true) {
      var newTrigger := SaveTIGMessageSentTrigger(client, channel);
      if !newTrigger.ok {
        return Error(CreateFailedPrefix + newTrigger.error.value);
      }
    }
    return Outputs;
  }

  // ---------------------------------------------------------------------
  // The outcome of one invocation, path by path.

  /** A failed put ends the invocation: nothing stored, no list or create call. */
  lemma PutFailureStopsEarly(w: Workspace, faults: Faults, channel: string, userToAlert: Option<string>,
                             filterEvent: string)
    requires DistinctIds(w.records)
    requires faults.put.Some?
    ensures var (w', response) := Setup(w, faults, channel, userToAlert, filterEvent);
      && response == Error("Failed to save user to alert: " + faults.put.value)
      && w'.records == w.records && w'.triggers == w.triggers
      && |w'.calls| == |w.calls| + 1 && w'.calls[..|w.calls|] == w.calls && w'.calls[|w.calls|].PutCall?
  {
  }

  /**
   * Once the put succeeded, exactly one record with a fresh id, the channel
   * and the user is appended, whatever happens next (no rollback, no
   * deduplication by channel).
   */
  lemma RecordAppendedPastPut(w: Workspace, faults: Faults, channel: string, userToAlert: Option<string>,
                              filterEvent: string)
    requires DistinctIds(w.records)
    requires faults.put.None?
    ensures var w' := Setup(w, faults, channel, userToAlert, filterEvent).0;
      && DistinctIds(w'.records)
      && |w'.records| == |w.records| + 1
      && w'.records[..|w.records|] == w.records
      && var added := w'.records[|w.records|];
      && added.channel == channel && added.userToAlert == userToAlert
      && (forall x <- w.records :: x.id != added.id)
  {
    SetupAppendsRecord(w, faults, channel, userToAlert, filterEvent);
  }

  /** Past the put, the new records are the old ones plus the item that was put. */
  lemma SetupAppendsRecord(w: Workspace, faults: Faults, channel: string, userToAlert: Option<string>,
                           filterEvent: string)
    requires DistinctIds(w.records)
    requires faults.put.None?
    ensures Setup(w, faults, channel, userToAlert, filterEvent).0.records
         == w.records + [AlertRecord(NewUuid(w.records), channel, userToAlert)]
  {
    var item := AlertRecord(NewUuid(w.records), channel, userToAlert);
    assert Upsert(w.records, item) == w.records + [item];
  }

  /** A list failure with a non-empty error ends the invocation before any create call. */
  lemma LookupFailureStopsEarly(w: Workspace, faults: Faults, channel: string, userToAlert: Option<string>,
                                filterEvent: string)
    requires DistinctIds(w.records)
    requires faults.put.None? && Truthy(faults.list)
    ensures var (w', response) := Setup(w, faults, channel, userToAlert, filterEvent);
      && response == Error("Failed to lookup existing triggers: " + faults.list.value)
      && w'.triggers == w.triggers
      && |w'.calls| == |w.calls| + 2 && w'.calls[..|w.calls|] == w.calls && w'.calls[|w.calls| + 1] == ListCall
  {
  }

  /**
   * A list failure whose error is the empty string is falsy: the handler
   * goes on as though no trigger existed and creates one.
   */
  lemma EmptyLookupErrorFallsThrough(w: Workspace, faults: Faults, channel: string,
                                     userToAlert: Option<string>, filterEvent: string)
    requires DistinctIds(w.records)
    requires faults.put.None? && faults.list == Some("") && faults.create.None?
    ensures var (w', response) := Setup(w, faults, channel, userToAlert, filterEvent);
      && response == Outputs
      && w'.triggers == w.triggers + [CreatedTrigger(TIGTriggerSpec(channel))]
  {
  }

  /** When a matching trigger is listed, no create call is made and the registry is unchanged. */
  lemma ExistingTriggerSkipsCreate(w: Workspace, faults: Faults, channel: string,
                                   userToAlert: Option<string>, filterEvent: string)
    requires DistinctIds(w.records)
    requires faults.put.None? && faults.list.None?
    requires exists i :: 0 <= i < |w.triggers| && IsListenerTrigger(w.triggers[i], channel, filterEvent)
    ensures var (w', response) := Setup(w, faults, channel, userToAlert, filterEvent);
      && response == Outputs
      && w'.triggers == w.triggers
      && |w'.calls| == |w.calls| + 2 && w'.calls[|w.calls| + 1] == ListCall
  {
    AnyListenerTriggerIff(w.triggers, channel, filterEvent);
  }

  /** When no matching trigger is listed and create succeeds, exactly the TIG trigger is appended. */
  lemma MissingTriggerIsCreated(w: Workspace, faults: Faults, channel: string,
                                userToAlert: Option<string>, filterEvent: string)
    requires DistinctIds(w.records)
    requires faults.put.None? && faults.list.None? && faults.create.None?
    requires forall i :: 0 <= i < |w.triggers| ==> !IsListenerTrigger(w.triggers[i], channel, filterEvent)
    ensures var (w', response) := Setup(w, faults, channel, userToAlert, filterEvent);
      && response == Outputs
      && |w'.triggers| == |w.triggers| + 1
      && w'.triggers[..|w.triggers|] == w.triggers
      && var t := w'.triggers[|w.triggers|];
      && t.workflowCallbackId == "send_alert_workflow"
      && t.eventType == "slack#/events/message_posted"
      && t.channelIds == [channel]
      && t.inputs == map["channel" := channel]
      && w'.calls[|w.calls| + 2] == CreateCall(TIGTriggerSpec(channel))
  {
    AnyListenerTriggerIff(w.triggers, channel, filterEvent);
    TIGTriggerShape(channel);
  }

  /** A failed create leaves the registry unchanged but keeps the new record. */
  lemma CreateFailureKeepsRecord(w: Workspace, faults: Faults, channel: string,
                                 userToAlert: Option<string>, filterEvent: string)
    requires DistinctIds(w.records)
    requires faults.put.None? && faults.list.None? && faults.create.Some?
    requires forall i :: 0 <= i < |w.triggers| ==> !IsListenerTrigger(w.triggers[i], channel, filterEvent)
    ensures var (w', response) := Setup(w, faults, channel, userToAlert, filterEvent);
      && response == Error("Failed to create trigger: " + faults.create.value)
      && w'.triggers == w.triggers
      && |w'.records| == |w.records| + 1
      && w'.records[|w.records|].channel == channel
  {
    AnyListenerTriggerIff(w.triggers, channel, filterEvent);
    RecordAppendedPastPut(w, faults, channel, userToAlert, filterEvent);
  }

  // ---------------------------------------------------------------------
  // Two invocations in sequence.

  /**
   * As written, a registration never makes the existence check succeed: the
   * check's answer for a channel is the same after a fault-free invocation
   * as before it.
   */
  lemma SetupNeverSatisfiesItsOwnCheck(w: Workspace, channel: string, userToAlert: Option<string>,
                                       queried: string)
    requires DistinctIds(w.records)
    ensures var w' := Setup(w, NoFaults, channel, userToAlert, UserJoinedChannel).0;
      AnyListenerTrigger(w'.triggers, queried, UserJoinedChannel)
        == AnyListenerTrigger(w.triggers, queried, UserJoinedChannel)
  {
    var t := CreatedTrigger(TIGTriggerSpec(channel));
    CreatedTriggerNeverMatches(channel, queried);
    AnyListenerTriggerAppend(w.triggers, t, queried, UserJoinedChannel);
  }

  /**
   * As written, two fault-free registrations for a channel that has no
   * matching trigger both succeed and append two identical triggers.
   */
  lemma RepeatedSetupDuplicatesTrigger(w: Workspace, channel: string, user1: Option<string>,
                                       user2: Option<string>)
    requires DistinctIds(w.records)
    requires !AnyListenerTrigger(w.triggers, channel, UserJoinedChannel)
    ensures var (w1, r1) := Setup(w, NoFaults, channel, user1, UserJoinedChannel);
      DistinctIds(w1.records) &&
      var (w2, r2) := Setup(w1, NoFaults, channel, user2, UserJoinedChannel);
      var t := CreatedTrigger(TIGTriggerSpec(channel));
      && r1 == Outputs && r2 == Outputs
      && w2.triggers == w.triggers + [t, t]
  {
    RecordAppendedPastPut(w, NoFaults, channel, user1, UserJoinedChannel);
    var w1 := Setup(w, NoFaults, channel, user1, UserJoinedChannel).0;
    SetupNeverSatisfiesItsOwnCheck(w, channel, user1, channel);
    assert w1.triggers == w.triggers + [CreatedTrigger(TIGTriggerSpec(channel))];
  }

  /**
   * Two fault-free registrations for one channel by two users store two
   * records with distinct ids, both for that channel.
   */
  lemma RepeatedSetupAccumulatesRecords(w: Workspace, channel: string, user1: Option<string>,
                                        user2: Option<string>, filterEvent: string)
    requires DistinctIds(w.records)
    ensures var w1 := Setup(w, NoFaults, channel, user1, filterEvent).0;
      DistinctIds(w1.records) &&
      var w2 := Setup(w1, NoFaults, channel, user2, filterEvent).0;
      && |w2.records| == |w.records| + 2
      && w2.records[..|w.records|] == w.records
      && w2.records[|w.records|].channel == channel && w2.records[|w.records|].userToAlert == user1
      && w2.records[|w.records| + 1].channel == channel && w2.records[|w.records| + 1].userToAlert == user2
      && w2.records[|w.records|].id != w2.records[|w.records| + 1].id
  {
    var a1 := AlertRecord(NewUuid(w.records), channel, user1);
    SetupAppendsRecord(w, NoFaults, channel, user1, filterEvent);
    var w1 := Setup(w, NoFaults, channel, user1, filterEvent).0;
    var a2 := AlertRecord(NewUuid(w1.records), channel, user2);
    SetupAppendsRecord(w1, NoFaults, channel, user2, filterEvent);
    assert a1 in w1.records;
  }

  /**
   * With the check corrected to the event type the created trigger listens
   * to, the second of two fault-free registrations creates nothing: one
   * trigger for the channel in all.
   */
  lemma CorrectedSetupIsIdempotent(w: Workspace, channel: string, user1: Option<string>,
                                   user2: Option<string>)
    requires DistinctIds(w.records)
    requires !AnyListenerTrigger(w.triggers, channel, MessagePosted)
    ensures var (w1, r1) := Setup(w, NoFaults, channel, user1, MessagePosted);
      DistinctIds(w1.records) &&
      var (w2, r2) := Setup(w1, NoFaults, channel, user2, MessagePosted);
      && r1 == Outputs && r2 == Outputs
      && w2.triggers == w1.triggers == w.triggers + [CreatedTrigger(TIGTriggerSpec(channel))]
  {
    RecordAppendedPastPut(w, NoFaults, channel, user1, MessagePosted);
    var t := CreatedTrigger(TIGTriggerSpec(channel));
    CreatedTriggerNeverMatches(channel, channel);
    AnyListenerTriggerAppend(w.triggers, t, channel, MessagePosted);
  }
}
