/**
 * The boundary with the identity provider's SDK, which both src/client.ts and
 * src/okta.ts call into and which is not part of this model: what one
 * invocation of a wrapped client call does, the paginated collection a list
 * call returns (flattened into its items, followed by the end of the data or
 * an iteration fault), and the filter both variants apply to it.
 */
module Sdk {
  import opened Domain

  /** Connection settings: organisation URL and API token. */
  datatype Config = Config(orgUrl: string, token: string)

  /** An SDK client instance; its behaviour is given by an `Api`. */
  datatype SdkClient = SdkClient(config: Config)

  /** The outcome of `new OktaClient(config)`. */
  datatype Construction = Constructed(client: SdkClient) | ConstructorThrew(cause: Value)

  /** What one invocation of the function handed to `use` did. */
  datatype CallOutcome<+T> =
    | Threw(thrown: Value)     // threw before returning anything
    | Returned(result: T)      // returned a plain, non-promise value
    | Resolved(result: T)      // returned a promise that fulfilled
    | Rejected(reason: Value)  // returned a promise that rejected

  /** The three list endpoints; `listGroupUsers` takes the group id as a plain string. */
  datatype Request = ListUsers | ListGroups | ListGroupUsers(groupId: string)

  /** How the item sequence of a collection ends. */
  datatype Ending = End | IterError(cause: Value)

  /** A paginated collection, flattened: the items of its pages in order, then its ending. */
  datatype Collection = Collection(items: seq<Value>, ending: Ending)

  /** What the remote service answers to the `n`-th invocation (from 0) of a request on a client. */
  type Api = (SdkClient, Request, nat) -> CallOutcome<Collection>

  /** The invocations of one request on one client, numbered from 0. */
  function Attempts(api: Api, client: SdkClient, request: Request): nat -> CallOutcome<Collection> {
    (n: nat) => api(client, request, n)
  }

  /** One step of the collection's async iterator. */
  datatype Step = Item(item: Value) | Done | Fault(cause: Value)

  /** What the iterator yields when asked for the element at position `pos`. */
  function Next(c: Collection, pos: nat): (s: Step)
    ensures s.Item? <==> pos < |c.items|
    ensures s.Item? ==> s.item == c.items[pos]
    ensures s.Fault? <==> pos >= |c.items| && c.ending.IterError?
  {
    if pos < |c.items| then Item(c.items[pos])
    else match c.ending
      case End => Done
      case IterError(e) => Fault(e)
  }

  /** The items that pass `Stream.filter((item) => item !== null)`. */
  function NonNullItems(items: seq<Value>): (r: seq<Value>)
    ensures |r| <= |items|
    ensures forall i :: 0 <= i < |r| ==> r[i] != Null
  {
    if items == [] then []
    else (if items[0] == Null then [] else [items[0]]) + NonNullItems(items[1..])
  }

  /** The filter distributes over concatenation: it keeps the order of what it keeps. */
  lemma {:induction false} NonNullItemsAppend(a: seq<Value>, b: seq<Value>)
    ensures NonNullItems(a + b) == NonNullItems(a) + NonNullItems(b)
  {
    if a == [] {
      assert a + b == b;
    } else {
      assert (a + b)[1..] == a[1..] + b;
      NonNullItemsAppend(a[1..], b);
    }
  }

  /** Exactly the `null` entries are removed: every other value keeps its number of occurrences. */
  lemma {:induction false} NonNullItemsCounts(items: seq<Value>)
    ensures multiset(NonNullItems(items)) == multiset(items)[Null := 0]
  {
    if items != [] {
      var x, rest := items[0], items[1..];
      NonNullItemsCounts(rest);
      assert items == [x] + rest;
      assert multiset(NonNullItems(items)) == multiset(if x == Null then [] else [x]) + multiset(NonNullItems(rest));
    }
  }

  /** A sequence without `null` passes the filter unchanged. */
  lemma {:induction false} NonNullItemsKeepsAll(items: seq<Value>)
    requires forall i :: 0 <= i < |items| ==> items[i] != Null
    ensures NonNullItems(items) == items
  {
    if items != [] {
      NonNullItemsKeepsAll(items[1..]);
    }
  }
}
