/**
 * The earlier fetch adapter of src/okta.ts: the same `use` error
 * normalisation without retry, a client constructor whose throw is a typed
 * error, and list streams of raw, undecoded items.
 */
module Okta {
  import opened Wrappers
  import opened Domain
  import opened Sdk

  /** `OktaError`: the one error of this variant. */
  datatype OktaError = OktaError(cause: Value, message: Option<string>)

  const CreateErrorMessage: string := "Failed to create Okta client"
  const SyncErrorMessage: string := "Synchronous error in `Okta.use`"
  const AsyncErrorMessage: string := "Asynchronous error in `Okta.use`"

  /** The service handle `make` provides; every list operation needs one. */
  datatype Okta = Okta(client: SdkClient)

  /** `make`: a throwing constructor becomes an `OktaError` that carries the thrown value. */
  function Make(construction: Construction): (r: Result<Okta, OktaError>)
    ensures r.Ok? <==> construction.Constructed?
    ensures r.Ok? ==> r.value.client == construction.client
    ensures r.Err? ==> r.error == OktaError(construction.cause, Some(CreateErrorMessage))
  {
    match construction
    case Constructed(client) => Ok(Okta(client))
    case ConstructorThrew(e) => Err(OktaError(e, Some(CreateErrorMessage)))
  }

  /**
   * `use`: the wrapped function is invoked once, with no retry; a plain result
   * passes through, a fulfilled promise gives its value.
   */
  function Use<T>(o: CallOutcome<T>): (r: Result<T, OktaError>)
    ensures r.Ok? <==> o.Returned? || o.Resolved?
    ensures r.Ok? ==> r.value == o.result
    ensures o.Threw? ==> r.error == OktaError(o.thrown, Some(SyncErrorMessage))
    ensures o.Rejected? ==> r.error == OktaError(o.reason, Some(AsyncErrorMessage))
  {
    match o
    case Threw(e) => Err(OktaError(e, Some(SyncErrorMessage)))
    case Returned(x) => Ok(x)
    case Resolved(x) => Ok(x)
    case Rejected(e) => Err(OktaError(e, Some(AsyncErrorMessage)))
  }

  /** How a list stream ends when drained; with no decoding there is no defect. */
  datatype StreamEnd = Completed | Failed(error: OktaError)

  /** What a consumer that drains a stream sees: the elements in order, then the end. */
  datatype Run<+T> = Run(emitted: seq<T>, end: StreamEnd)

  /** An iteration fault becomes an `OktaError` that carries the cause and no message. */
  function EndOf(e: Ending): (s: StreamEnd)
    ensures s.Completed? <==> e.End?
    ensures e.IterError? ==> s == Failed(OktaError(e.cause, None))
  {
    match e
    case End => Completed
    case IterError(cause) => Failed(OktaError(cause, None))
  }

  /** What draining `collectionToStream(c)` yields: the non-null items in order, then the collection's end. */
  function Drained(c: Collection): (r: Run<Value>)
    ensures forall i :: 0 <= i < |r.emitted| ==> r.emitted[i] != Null
    ensures multiset(r.emitted) == multiset(c.items)[Null := 0]
    ensures r.end.Completed? <==> c.ending.End?
    ensures c.ending.IterError? ==> r.end == Failed(OktaError(c.ending.cause, None))
  {
    NonNullItemsCounts(c.items);
    Run(NonNullItems(c.items), EndOf(c.ending))
  }

  /** `collectionToStream`: pulls the iterator item by item, dropping `null` items. */
  method CollectionToStream(c: Collection) returns (run: Run<Value>)
    ensures run == Drained(c)
  {
    var emitted: seq<Value> := [];
    var pos: nat := 0;
    var step := Next(c, pos);
    while step.Item?
      invariant pos <= |c.items|
      invariant step == Next(c, pos)
      invariant emitted == NonNullItems(c.items[..pos])
      decreases |c.items| - pos
    {
      NonNullItemsAppend(c.items[..pos], [step.item]);
      assert c.items[..pos + 1] == c.items[..pos] + [step.item];
      if step.item != Null {
        emitted := emitted + [step.item];
      }
      pos := pos + 1;
      step := Next(c, pos);
    }
    assert c.items[..pos] == c.items;
    run := Run(emitted, if step.Fault? then Failed(OktaError(step.cause, None)) else Completed);
  }

  /** The raw stream a list operation yields once its single call has produced `call`. */
  function ListRun(call: Result<Collection, OktaError>): (r: Run<Value>)
    ensures call.Err? ==> r == Run([], Failed(call.error))
    ensures call.Ok? ==> multiset(r.emitted) == multiset(call.value.items)[Null := 0]
    ensures forall i :: 0 <= i < |r.emitted| ==> r.emitted[i] != Null
    ensures r.end.Completed? <==> call.Ok? && call.value.ending.End?
  {
    match call
    case Err(e) => Run([], Failed(e))
    case Ok(c) => Drained(c)
  }

  /** A list operation: one call through `use`, then the raw stream of what it returned. */
  method ListWith(outcome: CallOutcome<Collection>) returns (run: Run<Value>)
    ensures run == ListRun(Use(outcome))
  {
    match Use(outcome)
    case Err(e) =>
      run := Run([], Failed(e));
    case Ok(c) =>
      run := CollectionToStream(c);
  }

  /** `listOktaUsers`: only the first invocation of the endpoint is ever made. */
  method ListOktaUsers(okta: Okta, api: Api) returns (run: Run<Value>)
    ensures run == ListRun(Use(api(okta.client, ListUsers, 0)))
  {
    run := ListWith(api(okta.client, ListUsers, 0));
  }

  /** `listOktaGroups`: only the first invocation of the endpoint is ever made. */
  method ListOktaGroups(okta: Okta, api: Api) returns (run: Run<Value>)
    ensures run == ListRun(Use(api(okta.client, ListGroups, 0)))
  {
    run := ListWith(api(okta.client, ListGroups, 0));
  }

  /** `listOktaGroupMembers`: the group id goes to `listGroupUsers` unchanged. */
  method ListOktaGroupMembers(okta: Okta, api: Api, groupId: string) returns (run: Run<Value>)
    ensures run == ListRun(Use(api(okta.client, ListGroupUsers(groupId), 0)))
  {
    run := ListWith(api(okta.client, ListGroupUsers(groupId), 0));
  }
}
