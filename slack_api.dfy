/**
 * An in-memory model of the two Slack platform services that the channel
 * listener setup function talks to through its `client`: the app datastore
 * that holds alert-routing records (`client.apps.datastore.put`) and the
 * app's trigger registry (`client.workflows.triggers.list` and `.create`).
 *
 * The transport is gone: each endpoint either succeeds and updates the
 * in-memory state, or fails with the error string that the client's fault
 * plan holds for it. Every call is logged, so that a caller's contract can
 * say which calls happened and in what order.
 */
module SlackApi {

  datatype Option<T> = None | Some(value: T)

  /** One item of the users-to-alert datastore, keyed by `id`. */
  datatype AlertRecord = AlertRecord(id: string, channel: string, userToAlert: Option<string>)

  /** The argument of a `triggers.create` call. */
  datatype TriggerSpec = TriggerSpec(
    triggerType: string,
    name: string,
    description: string,
    workflow: string,             // a reference of the form "#/workflows/<callback_id>"
    eventType: string,
    channelIds: seq<string>,
    inputs: map<string, string>)  // workflow input name to the fixed value bound to it

  /** A trigger as `triggers.list` reports it. */
  datatype Trigger = Trigger(
    triggerType: string,
    name: string,
    description: string,
    workflowCallbackId: string,
    eventType: string,
    channelIds: seq<string>,
    inputs: map<string, string>)

  /** The log entry of one call into the platform. */
  datatype ApiCall = PutCall(item: AlertRecord) | ListCall | CreateCall(spec: TriggerSpec)

  /** The platform state the app can observe: both stores and the call log. */
  datatype Workspace = Workspace(records: seq<AlertRecord>, triggers: seq<Trigger>, calls: seq<ApiCall>)

  /** For each endpoint, `Some(e)` makes every call to it fail with error `e`. */
  datatype Faults = Faults(put: Option<string>, list: Option<string>, create: Option<string>)

  const NoFaults := Faults(None, None, None)

  datatype ApiResponse = Ok | Failed(error: string)

  datatype ListResponse = Listed(triggers: seq<Trigger>) | ListFailed(error: string)

  /** The datastore is keyed by `id`: no two records share one. */
  predicate DistinctIds(records: seq<AlertRecord>) {
    forall i, j :: 0 <= i < j < |records| ==> records[i].id != records[j].id
  }

  /**
   * The effect of a datastore put: the record with the item's id is
   * replaced, or the item is appended when no record has that id.
   */
  function Upsert(records: seq<AlertRecord>, item: AlertRecord): (r: seq<AlertRecord>)
    requires DistinctIds(records)
    ensures DistinctIds(r)
    ensures item in r
    ensures forall x <- r :: x == item || (x in records && x.id != item.id)
    ensures forall x <- records :: x.id != item.id ==> x in r
    ensures (forall x <- records :: x.id != item.id) ==> r == records + [item]
  {
    if records == [] then [item]
    else if records[0].id == item.id then
      assert forall x <- records[1..] :: x.id != item.id by {
        forall j | 1 <= j < |records| ensures records[j].id != records[0].id { }
      }
      [item] + records[1..]
    else
      var rest := Upsert(records[1..], item);
      assert forall x <- rest :: x.id != records[0].id by {
        forall j | 1 <= j < |records| ensures records[j].id != records[0].id { }
      }
      [records[0]] + rest
  }

  /** An upper bound on the length of every stored id. */
  function LongestId(records: seq<AlertRecord>): (n: nat)
    ensures forall x <- records :: |x.id| <= n
  {
    if records == [] then 0
    else
      var rest := LongestId(records[1..]);
      if |records[0].id| < rest then rest else |records[0].id|
  }

  /**
   * `crypto.randomUUID()` as the model needs it: an id that no stored
   * record carries (a string longer than every stored id).
   */
  function NewUuid(records: seq<AlertRecord>): (id: string)
    ensures forall x <- records :: x.id != id
  {
    seq(LongestId(records) + 1, _ => '0')
  }

  const WorkflowRefPrefix := "#/workflows/"

  /** The workflow callback id that a "#/workflows/<callback_id>" reference names. */
  function ResolveWorkflow(ref: string): (r: string)
    ensures |r| <= |ref|
  {
    var n := |WorkflowRefPrefix|;
    if n <= |ref| && ref[..n] == WorkflowRefPrefix then ref[n..] else ref
  }

  lemma WorkflowRefRoundTrip(callbackId: string)
    ensures ResolveWorkflow(WorkflowRefPrefix + callbackId) == callbackId
  {
    var ref := WorkflowRefPrefix + callbackId;
    assert ref[..|WorkflowRefPrefix|] == WorkflowRefPrefix;
    assert ref[|WorkflowRefPrefix|..] == callbackId;
  }

  /** The trigger the registry lists after a successful create of `spec`. */
  function CreatedTrigger(spec: TriggerSpec): (r: Trigger) {
    Trigger(spec.triggerType, spec.name, spec.description, ResolveWorkflow(spec.workflow),
            spec.eventType, spec.channelIds, spec.inputs)
  }

  /** A fake Slack API client over in-memory stores, with a fixed fault plan. */
  class Client {
    var records: seq<AlertRecord>
    var triggers: seq<Trigger>
    var calls: seq<ApiCall>
    const faults: Faults

    ghost predicate Valid()
      reads this
    {
      DistinctIds(records)
    }

    function State(): Workspace
      reads this
    {
      Workspace(records, triggers, calls)
    }

    constructor (records: seq<AlertRecord>, triggers: seq<Trigger>, faults: Faults)
      requires DistinctIds(records)
      ensures Valid()
      ensures State() == Workspace(records, triggers, [])
      ensures this.faults == faults
    {
      this.records := records;
      this.triggers := triggers;
      this.calls := [];
      this.faults := faults;
    }

    /** `apps.datastore.put`: creates the item, or replaces the one with its id. */
    method DatastorePut(item: AlertRecord) returns (response: ApiResponse)
      requires Valid()
      modifies this
      ensures Valid()
      ensures response.Ok? <==> faults.put.None?
      ensures response.Failed? ==> response.error == faults.put.value
      ensures records == if response.Ok? then Upsert(old(records), item) else old(records)
      ensures triggers == old(triggers)
      ensures calls == old(calls) + [PutCall(item)]
    {
      calls := calls + [PutCall(item)];
      if faults.put.Some? {
        return Failed(faults.put.value);
      }
      records := Upsert(records, item);
      return Ok;
    }

    /** `workflows.triggers.list` with `is_owner: true`: every trigger of the app. */
    method TriggersList() returns (response: ListResponse)
      modifies this
      ensures response == if faults.list.Some? then ListFailed(faults.list.value) else Listed(triggers)
      ensures records == old(records) && triggers == old(triggers)
      ensures calls == old(calls) + [ListCall]
    {
      calls := calls + [ListCall];
      if faults.list.Some? {
        return ListFailed(faults.list.value);
      }
      return Listed(triggers);
    }

    /** `workflows.triggers.create`: registers one more trigger; never deduplicates. */
    method TriggersCreate(spec: TriggerSpec) returns (response: ApiResponse)
      modifies this
      ensures response.Ok? <==> faults.create.None?
      ensures response.Failed? ==> response.error == faults.create.value
      ensures triggers == if response.Ok? then old(triggers) + [CreatedTrigger(spec)] else old(triggers)
      ensures records == old(records)
      ensures calls == old(calls) + [CreateCall(spec)]
    {
      calls := calls + [CreateCall(spec)];
      if faults.create.Some? {
        return Failed(faults.create.value);
      }
      triggers := triggers + [CreatedTrigger(spec)];
      return Ok;
    }
  }
}
