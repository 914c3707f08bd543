/**
 * The fetch adapter and list pipeline of src/client.ts.
 *
 * `use` runs one call against the SDK client and turns a synchronous throw
 * and a rejected promise into the same tagged error, each with its own
 * message; the whole is retried up to three times with exponential backoff
 * from 100 ms. A list operation calls its endpoint through `use`, drains the
 * returned collection without its `null` entries and decodes each item with
 * the record schemas, a decode failure ending the stream as a defect.
 */
module Client {
  import opened Wrappers
  import opened Domain
  import opened Sdk

  /** `OktaClientError`: the one retryable error of this layer. */
  datatype OktaClientError = OktaClientError(cause: Value, message: Option<string>)

  const SyncErrorMessage: string := "Synchronous error in `Okta.use`"
  const AsyncErrorMessage: string := "Asynchronous error in `Okta.use`"

  /** The service handle `make` provides; every list operation needs one. */
  datatype OktaClient = OktaClient(client: SdkClient)

  /** The outcome of `make`: the handle, or the constructor's throw as a defect (`Effect.sync` does not catch). */
  datatype Made = Ready(handle: OktaClient) | Defect(thrown: Value)

  /** `make`: wraps the constructed SDK client; it never fails with an `OktaClientError`. */
  function Make(construction: Construction): (r: Made)
    ensures r.Ready? <==> construction.Constructed?
    ensures r.Ready? ==> r.handle.client == construction.client
    ensures r.Defect? ==> r.thrown == construction.cause
  {
    match construction
    case Constructed(client) => Ready(OktaClient(client))
    case ConstructorThrew(e) => Defect(e)
  }

  // ---------------------------------------------------------------------------
  // `use`: one attempt, then the retry around it

  /** One attempt of `use`: a plain result passes through, a fulfilled promise gives its value. */
  function Attempt<T>(o: CallOutcome<T>): (r: Result<T, OktaClientError>)
    ensures r.Ok? <==> o.Returned? || o.Resolved?
    ensures r.Ok? ==> r.value == o.result
    ensures o.Threw? ==> r.error == OktaClientError(o.thrown, Some(SyncErrorMessage))
    ensures o.Rejected? ==> r.error == OktaClientError(o.reason, Some(AsyncErrorMessage))
  {
    match o
    case Threw(e) => Err(OktaClientError(e, Some(SyncErrorMessage)))
    case Returned(x) => Ok(x)
    case Resolved(x) => Ok(x)
    case Rejected(e) => Err(OktaClientError(e, Some(AsyncErrorMessage)))
  }

  /** `times: 3` */
  const Retries: nat := 3

  /** `Schedule.exponential(Duration.millis(100))`: the first delay, doubled after each retry. */
  const BaseDelayMillis: nat := 100

  function Pow2(n: nat): (p: nat)
    ensures p >= 1
  {
    if n == 0 then 1 else 2 * Pow2(n - 1)
  }

  /** The delays waited before the first `n` retries, in milliseconds. */
  function Backoff(n: nat): (ds: seq<nat>)
    ensures |ds| == n
    ensures n > 0 ==> ds[0] == BaseDelayMillis
    ensures forall i :: 0 < i < n ==> ds[i] == 2 * ds[i - 1]
  {
    seq(n, i requires 0 <= i => BaseDelayMillis * Pow2(i))
  }

  /** What `use` with retry did: its result, how many times it called, and the delays it waited. */
  datatype Retry<T> = Retry(result: Result<T, OktaClientError>, calls: nat, delays: seq<nat>)

  /**
   * `use` retried from attempt `k` on: the first attempt that succeeds, or the
   * failure of attempt `Retries`, the last one allowed.
   */
  function Retried<T>(attempts: nat -> CallOutcome<T>, k: nat): (r: Retry<T>)
    requires k <= Retries
    ensures k < r.calls <= Retries + 1
    ensures r.result == Attempt(attempts(r.calls - 1))
    ensures forall i :: k <= i < r.calls - 1 ==> Attempt(attempts(i)).Err?
    ensures r.result.Err? ==> r.calls == Retries + 1
    decreases Retries - k
  {
    var result := Attempt(attempts(k));
    if result.Ok? || k == Retries then Retry(result, k + 1, Backoff(k))
    else Retried(attempts, k + 1)
  }

  /** The delays are those before each retry that was made. */
  lemma {:induction false} RetriedDelays<T>(attempts: nat -> CallOutcome<T>, k: nat)
    requires k <= Retries
    ensures Retried(attempts, k).delays == Backoff(Retried(attempts, k).calls - 1)
    decreases Retries - k
  {
    if Attempt(attempts(k)).Err? && k < Retries {
      RetriedDelays(attempts, k + 1);
    }
  }

  /**
   * `use` with retry, as the loop of attempts the retry schedule drives: at
   * most 1 + 3 calls, stopping at the first success.
   */
  method Use<T>(attempts: nat -> CallOutcome<T>) returns (result: Result<T, OktaClientError>, calls: nat, delays: seq<nat>)
    ensures 1 <= calls <= Retries + 1
    ensures result == Attempt(attempts(calls - 1))
    ensures forall i :: 0 <= i < calls - 1 ==> Attempt(attempts(i)).Err?
    ensures result.Err? ==> calls == Retries + 1
    ensures delays == Backoff(calls - 1)
    ensures Retry(result, calls, delays) == Retried(attempts, 0)
  {
    calls := 1;
    result := Attempt(attempts(0));
    delays := [];
    while result.Err? && calls <= Retries
      invariant 1 <= calls <= Retries + 1
      invariant result == Attempt(attempts(calls - 1))
      invariant forall i :: 0 <= i < calls - 1 ==> Attempt(attempts(i)).Err?
      invariant delays == Backoff(calls - 1)
      decreases Retries + 1 - calls
    {
      delays := delays + [BaseDelayMillis * Pow2(calls - 1)];
      result := Attempt(attempts(calls));
      calls := calls + 1;
    }
    RetriedDelays(attempts, 0);
    RetryUnique(attempts, result, calls, Retried(attempts, 0).result, Retried(attempts, 0).calls);
  }

  /** Two runs of the retry over the same attempts stop after the same number of calls. */
  lemma RetryUnique<T>(attempts: nat -> CallOutcome<T>, r1: Result<T, OktaClientError>, c1: nat,
                       r2: Result<T, OktaClientError>, c2: nat)
    requires 1 <= c1 <= Retries + 1 && 1 <= c2 <= Retries + 1
    requires r1 == Attempt(attempts(c1 - 1)) && r2 == Attempt(attempts(c2 - 1))
    requires forall i :: 0 <= i < c1 - 1 ==> Attempt(attempts(i)).Err?
    requires forall i :: 0 <= i < c2 - 1 ==> Attempt(attempts(i)).Err?
    requires r1.Err? ==> c1 == Retries + 1
    requires r2.Err? ==> c2 == Retries + 1
    ensures c1 == c2 && r1 == r2
  {
  }

  /** If attempt `j` is the first to succeed, its value is the result and no later attempt is made. */
  lemma {:induction false} FirstSuccessWins<T>(attempts: nat -> CallOutcome<T>, j: nat, v: T)
    requires j <= Retries
    requires forall i :: 0 <= i < j ==> Attempt(attempts(i)).Err?
    requires Attempt(attempts(j)) == Ok(v)
    ensures Retried(attempts, 0) == Retry(Ok(v), j + 1, Backoff(j))
  {
    RetriedDelays(attempts, 0);
    var r := Retried(attempts, 0);
    RetryUnique(attempts, Ok(v), j + 1, r.result, r.calls);
  }

  /** If all four attempts fail, the error of the last one is the result. */
  lemma AllAttemptsFail<T>(attempts: nat -> CallOutcome<T>)
    requires forall i :: 0 <= i <= Retries ==> Attempt(attempts(i)).Err?
    ensures Retried(attempts, 0) == Retry(Attempt(attempts(Retries)), Retries + 1, Backoff(Retries))
  {
    RetriedDelays(attempts, 0);
  }

  // ---------------------------------------------------------------------------
  // Streams

  /** How a list stream ends when drained. */
  datatype StreamEnd =
    | Completed                      // the collection was exhausted
    | Failed(error: OktaClientError) // the typed, retryable error channel
    | Died(defect: DecodeError)      // `Effect.orDie` on a decode failure

  /** What a consumer that drains a stream sees: the elements in order, then the end. */
  datatype Run<+T> = Run(emitted: seq<T>, end: StreamEnd)

  /** An iteration fault becomes an `OktaClientError` that carries the cause and no message. */
  function EndOf(e: Ending): (s: StreamEnd)
    ensures s.Completed? <==> e.End?
    ensures e.IterError? ==> s == Failed(OktaClientError(e.cause, None))
  {
    match e
    case End => Completed
    case IterError(cause) => Failed(OktaClientError(cause, None))
  }

  /** `collectionToStream`: drains the iterator, dropping `null` items. */
  method CollectionToStream(c: Collection) returns (run: Run<Value>)
    ensures run == Drained(c)
  {
    var emitted: seq<Value> := [];
    var pos: nat := 0;
    var step := Next(c, pos);
    while step.Item?
      invariant pos <= |c.items|
      invariant step == Next(c, pos)
      invariant emitted == NonNullItems(c.items[..pos])
      decreases |c.items| - pos
    {
      NonNullItemsAppend(c.items[..pos], [step.item]);
      assert c.items[..pos + 1] == c.items[..pos] + [step.item];
      if step.item != Null {
        emitted := emitted + [step.item];
      }
      pos := pos + 1;
      step := Next(c, pos);
    }
    assert c.items[..pos] == c.items;
    run := Run(emitted, if step.Fault? then Failed(OktaClientError(step.cause, None)) else Completed);
  }

  /** What draining `collectionToStream(c)` yields: the non-null items in order, then the collection's end. */
  function Drained(c: Collection): (r: Run<Value>)
    ensures forall i :: 0 <= i < |r.emitted| ==> r.emitted[i] != Null
    ensures multiset(r.emitted) == multiset(c.items)[Null := 0]
    ensures r.end.Completed? <==> c.ending.End?
    ensures c.ending.IterError? ==> r.end == Failed(OktaClientError(c.ending.cause, None))
  {
    NonNullItemsCounts(c.items);
    Run(NonNullItems(c.items), EndOf(c.ending))
  }

  /**
   * The stream of `items` decoded one by one, ending with `end` unless an item
   * fails to decode: then it stops there, with that item's error as a defect.
   */
  function DecodedRun<T>(items: seq<Value>, decode: Decoder<T>, end: StreamEnd): Run<T> {
    if items == [] then Run([], end)
    else match decode(items[0])
      case Err(e) => Run([], Died(e))
      case Ok(x) =>
        var rest := DecodedRun(items[1..], decode, end);
        Run([x] + rest.emitted, rest.end)
  }

  /**
   * The decoded stream is a prefix of the items, each decoded; it reaches the
   * given end only after all of them, and otherwise stops at the first item
   * that fails to decode, with that item's error.
   */
  lemma {:induction false} DecodedRunPrefix<T>(items: seq<Value>, decode: Decoder<T>, end: StreamEnd)
    ensures var r := DecodedRun(items, decode, end);
      |r.emitted| <= |items| &&
      (forall i :: 0 <= i < |r.emitted| ==> decode(items[i]) == Ok(r.emitted[i])) &&
      (|r.emitted| == |items| ==> r.end == end) &&
      (|r.emitted| < |items| ==> decode(items[|r.emitted|]).Err? && r.end == Died(decode(items[|r.emitted|]).error))
  {
    if items != [] && decode(items[0]).Ok? {
      DecodedRunPrefix(items[1..], decode, end);
      assert forall i :: 1 <= i < |items| ==> items[i] == items[1..][i - 1];
    }
  }

  /**
   * The stream a list operation yields once its call through `use` has
   * produced `call`: the collection drained, then each item decoded.
   */
  function ListRun<T>(call: Result<Collection, OktaClientError>, decode: Decoder<T>): Run<T> {
    match call
    case Err(e) => Run([], Failed(e))
    case Ok(c) =>
      var s := Drained(c);
      DecodedRun(s.emitted, decode, s.end)
  }

  /**
   * A failed call yields an empty stream with its error; after a successful
   * call at most the non-null items are yielded, a defect comes only from
   * decoding, and the typed error only from an iteration fault.
   */
  lemma ListRunEnds<T>(call: Result<Collection, OktaClientError>, decode: Decoder<T>)
    ensures call.Err? ==> ListRun(call, decode) == Run([], Failed(call.error))
    ensures call.Ok? ==> |ListRun(call, decode).emitted| <= |NonNullItems(call.value.items)|
    ensures ListRun(call, decode).end.Died? ==> call.Ok?
    ensures ListRun(call, decode).end.Failed? && call.Ok? ==>
      call.value.ending.IterError? && ListRun(call, decode).end == Failed(OktaClientError(call.value.ending.cause, None))
  {
    if call.Ok? {
      var s := Drained(call.value);
      DecodedRunPrefix(s.emitted, decode, s.end);
    }
  }

  /** The values of decodings known to succeed. */
  function DecodedValues<T>(items: seq<Value>, decode: Decoder<T>): seq<T>
    requires forall i :: 0 <= i < |items| ==> decode(items[i]).Ok?
  {
    seq(|items|, i requires 0 <= i < |items| => decode(items[i]).value)
  }

  /** When every item decodes, the stream yields all of them, decoded and in order, then the given end. */
  lemma {:induction false} AllItemsDecode<T>(items: seq<Value>, decode: Decoder<T>, end: StreamEnd)
    requires forall i :: 0 <= i < |items| ==> decode(items[i]).Ok?
    ensures DecodedRun(items, decode, end) == Run(DecodedValues(items, decode), end)
  {
    if items != [] {
      AllItemsDecode(items[1..], decode, end);
      assert DecodedValues(items, decode) == [decode(items[0]).value] + DecodedValues(items[1..], decode);
    }
  }

  /**
   * When item `j` is the first that fails to decode, the stream yields the
   * decoded items before it and then dies with its error, whatever the end
   * of the collection would have been: the failure is not retried.
   */
  lemma {:induction false} FirstDecodeFailure<T>(items: seq<Value>, decode: Decoder<T>, end: StreamEnd, j: nat)
    requires j < |items|
    requires forall i :: 0 <= i < j ==> decode(items[i]).Ok?
    requires decode(items[j]).Err?
    ensures DecodedRun(items, decode, end) == Run(DecodedValues(items[..j], decode), Died(decode(items[j]).error))
  {
    if j > 0 {
      assert items[1..][j - 1] == items[j];
      FirstDecodeFailure(items[1..], decode, end, j - 1);
      assert items[1..][..j - 1] == items[..j][1..];
      assert DecodedValues(items[..j], decode) == [decode(items[0]).value] + DecodedValues(items[1..][..j - 1], decode);
    }
  }

  /**
   * A successful call whose non-null items all decode yields exactly those
   * records in collection order, and ends as the collection does: cleanly, or
   * with an `OktaClientError` that carries the iteration fault.
   */
  lemma ListYieldsDecodedItems<T>(c: Collection, decode: Decoder<T>)
    requires forall i :: 0 <= i < |NonNullItems(c.items)| ==> decode(NonNullItems(c.items)[i]).Ok?
    ensures ListRun(Ok(c), decode) == Run(DecodedValues(NonNullItems(c.items), decode), EndOf(c.ending))
  {
    AllItemsDecode(NonNullItems(c.items), decode, EndOf(c.ending));
  }

  /**
   * Retry is transparent: when attempt `j` is the first to succeed, the
   * stream is the one a first-time success with the same collection yields.
   */
  lemma RetryIsTransparent<T>(attempts: nat -> CallOutcome<Collection>, decode: Decoder<T>, j: nat)
    requires j <= Retries
    requires forall i :: 0 <= i < j ==> Attempt(attempts(i)).Err?
    requires Attempt(attempts(j)).Ok?
    ensures ListRun(Retried(attempts, 0).result, decode) == ListRun(Ok(attempts(j).result), decode)
  {
    FirstSuccessWins(attempts, j, attempts(j).result);
  }

  /** When all four attempts fail, the stream yields nothing and fails with the last attempt's error. */
  lemma RetryExhausted<T>(attempts: nat -> CallOutcome<Collection>, decode: Decoder<T>)
    requires forall i :: 0 <= i <= Retries ==> Attempt(attempts(i)).Err?
    ensures ListRun(Retried(attempts, 0).result, decode) == Run([], Failed(Attempt(attempts(Retries)).error))
  {
    AllAttemptsFail(attempts);
  }

  /**
   * `collectionToStream(c).pipe(Stream.mapEffect(decode, orDie))` pulled to
   * the end: each item is decoded as soon as it is pulled, and a decode
   * failure stops the pulling. The result is the drained stream of
   * `CollectionToStream`, decoded item by item.
   */
  method DecodeEach<T>(c: Collection, decode: Decoder<T>) returns (run: Run<T>)
    ensures run == DecodedRun(Drained(c).emitted, decode, Drained(c).end)
    ensures run == ListRun(Ok(c), decode)
  {
    var whole := DecodedRun(NonNullItems(c.items), decode, EndOf(c.ending));
    var emitted: seq<T> := [];
    var pos: nat := 0;
    var step := Next(c, pos);
    while step.Item?
      invariant pos <= |c.items|
      invariant step == Next(c, pos)
      invariant whole.emitted == emitted + DecodedRun(NonNullItems(c.items[pos..]), decode, EndOf(c.ending)).emitted
      invariant whole.end == DecodedRun(NonNullItems(c.items[pos..]), decode, EndOf(c.ending)).end
      decreases |c.items| - pos
    {
      var x := step.item;
      ghost var tail := NonNullItems(c.items[pos + 1..]);
      ghost var rest := DecodedRun(tail, decode, EndOf(c.ending));
      assert c.items[pos..][0] == x && c.items[pos..][1..] == c.items[pos + 1..];
      assert NonNullItems(c.items[pos..]) == (if x == Null then [] else [x]) + tail;
      if x != Null {
        assert ([x] + tail)[0] == x && ([x] + tail)[1..] == tail;
        match decode(x)
        case Err(e) =>
          run := Run(emitted, Died(e));
          return;
        case Ok(y) =>
          assert DecodedRun([x] + tail, decode, EndOf(c.ending)) == Run([y] + rest.emitted, rest.end);
          assert emitted + ([y] + rest.emitted) == (emitted + [y]) + rest.emitted;
          emitted := emitted + [y];
      } else {
        assert [] + tail == tail;
      }
      pos := pos + 1;
      step := Next(c, pos);
    }
    assert c.items[pos..] == [];
    run := Run(emitted, if step.Fault? then Failed(OktaClientError(step.cause, None)) else Completed);
  }

  /** A list operation: the call through `use` (retried), then the decoded stream of what it returned. */
  method ListWith<T>(attempts: nat -> CallOutcome<Collection>, decode: Decoder<T>) returns (run: Run<T>, calls: nat)
    ensures calls == Retried(attempts, 0).calls
    ensures run == ListRun(Retried(attempts, 0).result, decode)
  {
    var call, delays;
    call, calls, delays := Use(attempts);
    match call
    case Err(e) =>
      run := Run([], Failed(e));
    case Ok(c) =>
      run := DecodeEach(c, decode);
  }

  /** `listOktaUsers` */
  method ListOktaUsers(okta: OktaClient, api: Api) returns (run: Run<OktaUser>, calls: nat)
    ensures calls == Retried(Attempts(api, okta.client, ListUsers), 0).calls
    ensures run == ListRun(Retried(Attempts(api, okta.client, ListUsers), 0).result, DecodeUser)
  {
    run, calls := ListWith(Attempts(api, okta.client, ListUsers), DecodeUser);
  }

  /** `listOktaGroups` */
  method ListOktaGroups(okta: OktaClient, api: Api) returns (run: Run<OktaGroup>, calls: nat)
    ensures calls == Retried(Attempts(api, okta.client, ListGroups), 0).calls
    ensures run == ListRun(Retried(Attempts(api, okta.client, ListGroups), 0).result, DecodeGroup)
  {
    run, calls := ListWith(Attempts(api, okta.client, ListGroups), DecodeGroup);
  }

  /** `listOktaGroupMembers`: the group id goes to `listGroupUsers` unchanged. */
  method ListOktaGroupMembers(okta: OktaClient, api: Api, groupId: GroupId) returns (run: Run<OktaUser>, calls: nat)
    ensures calls == Retried(Attempts(api, okta.client, ListGroupUsers(groupId.value)), 0).calls
    ensures run == ListRun(Retried(Attempts(api, okta.client, ListGroupUsers(groupId.value)), 0).result, DecodeUser)
  {
    run, calls := ListWith(Attempts(api, okta.client, ListGroupUsers(groupId.value)), DecodeUser);
  }
}
