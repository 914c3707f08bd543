/**
 * The two revisions of the fetch adapter side by side: src/okta.ts calls the
 * wrapped function once, src/client.ts retries it and decodes what it lists.
 */
module Variants {
  import opened Wrappers
  import opened Domain
  import opened Sdk
  import Okta
  import Client

  /** Both revisions normalise one invocation alike: same value, same cause, same message. */
  lemma UseAgreesWithAttempt<T>(o: CallOutcome<T>)
    ensures Okta.Use(o).Ok? <==> Client.Attempt(o).Ok?
    ensures Okta.Use(o).Ok? ==> Okta.Use(o).value == Client.Attempt(o).value
    ensures Okta.Use(o).Err? ==>
      Okta.Use(o).error.cause == Client.Attempt(o).error.cause &&
      Okta.Use(o).error.message == Client.Attempt(o).error.message
  {
  }

  /**
   * The retrying `use` stops after one call exactly when the single call of
   * the earlier revision succeeds, and then both give the same value.
   */
  lemma OneCallExactlyWhenFirstSucceeds<T>(attempts: nat -> CallOutcome<T>)
    ensures Client.Retried(attempts, 0).calls == 1 <==> Okta.Use(attempts(0)).Ok?
    ensures Okta.Use(attempts(0)).Ok? ==> Client.Retried(attempts, 0).result == Ok(Okta.Use(attempts(0)).value)
  {
    if Okta.Use(attempts(0)).Ok? {
      Client.FirstSuccessWins(attempts, 0, attempts(0).result);
    }
  }

  /** The end of a raw stream, as the decoding revision reports it: the same cause and message. */
  function AsClientEnd(e: Okta.StreamEnd): Client.StreamEnd {
    match e
    case Completed => Client.Completed
    case Failed(err) => Client.Failed(Client.OktaClientError(err.cause, err.message))
  }

  /**
   * On the same collection, the decoding stream of src/client.ts is the raw
   * stream of src/okta.ts decoded item by item, ending as the raw stream
   * does (with the same cause) unless an item fails to decode.
   */
  lemma DecodedStreamMapsRawStream<T>(c: Collection, decode: Decoder<T>)
    ensures Client.ListRun(Ok(c), decode)
         == Client.DecodedRun(Okta.ListRun(Ok(c)).emitted, decode, AsClientEnd(Okta.ListRun(Ok(c)).end))
  {
  }

  /** When every raw item decodes, the two streams have the same length and the same end. */
  lemma DecodedStreamWhenAllDecode<T>(c: Collection, decode: Decoder<T>)
    requires forall i :: 0 <= i < |NonNullItems(c.items)| ==> decode(NonNullItems(c.items)[i]).Ok?
    ensures Client.ListRun(Ok(c), decode).emitted == Client.DecodedValues(Okta.ListRun(Ok(c)).emitted, decode)
    ensures Client.ListRun(Ok(c), decode).end == AsClientEnd(Okta.ListRun(Ok(c)).end)
  {
    Client.ListYieldsDecodedItems(c, decode);
  }
}
