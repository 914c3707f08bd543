# Okta enumeration data-access layer in Dafny

This project models the data-access core of an Okta identity-record enumerator. The core has three parts:

- **The record validator** (`src/domain.ts`). It decodes an untyped value handed over by the Okta SDK into a user record or a group record, or fails. The value may hold `null` and `undefined`, and the schemas treat the two differently. A `Value` datatype stands for the JavaScript value. Each Effect schema becomes a decoding function to `Result<_, DecodeError>`. Struct properties are decoded in declaration order, and the first failure decides the error.
- **The fetch adapter and list pipeline** (`src/client.ts`). `use` runs one call against the SDK client and normalises its two failure channels into `OktaClientError`. It retries the call up to three times with exponential backoff from 100 ms. `collectionToStream` drains the paginated collection without its `null` items. The three list operations decode each item, and a decode failure ends the stream as a defect.
- **The earlier revision of the adapter** (`src/okta.ts`). Here `use` has no retry, a failing SDK constructor gives a typed error, and the list streams yield raw items.

The Okta SDK sits at the boundary (module `Sdk`):

- A call's outcome is a `CallOutcome`: it threw, returned a plain value, resolved a promise, or rejected one.
- The remote service is an `Api` function. It is numbered by invocation, so each retry attempt sees its own outcome.
- A collection is flattened into its items in order, followed by `End` or `IterError(cause)`.

The loops of the source are Dafny methods proved against specification functions:

- `Client.Use` is the retry loop, and `Client.Retried` specifies it.
- `Client.CollectionToStream` and `Okta.CollectionToStream` drain the iterator position by position, specified by `Sdk.NonNullItems`.
- `Client.DecodeEach` pulls and decodes item by item, stopping at the first decode failure. `Client.ListRun` specifies it.

Files:

- `wrappers.dfy`: Option and Result.
- `domain.dfy`: values and the decoders.
- `domain_properties.dfy`: what the decoders accept, null handling and encode/decode round trips.
- `sdk.dfy`: the SDK boundary.
- `client.dfy` and `okta.dfy`: the two adapter revisions.
- `variants.dfy`: how the two revisions relate.

Facts about the code that a reader might not expect, and that the model keeps:

- `UserIdSchema` and `GroupIdSchema` do not check for non-empty ids: any string is accepted, the empty one included (`DomainProperties.UserIdAnyString`).
- `GroupNotFoundError` is declared in `src/domain.ts:29` and raised by none of the modelled files. Listing a missing group's members just fails the call with the SDK's error.
- In `src/client.ts` the SDK client is built with `Effect.sync`, so a throwing constructor is a defect, not an `OktaClientError` (`Client.Make`). Only `src/okta.ts` turns it into a typed error (`Okta.Make`).
- `use` retries every synchronous throw and every rejection, whatever caused it, not only transient faults (`Client.Use`).
- Every record property is `Schema.optional`. So a key set to `undefined` is accepted like a missing one, whatever the property's schema (`DomainProperties.UserUndefinedIsMissing`).

## Model

| member | source | states |
|---|---|---|
| Domain.DecodeString | src/domain.ts:49 | `Schema.String` accepts exactly strings and yields the string itself |
| Domain.DecodeDate | src/domain.ts:82 | `Schema.DateFromSelf` accepts exactly `Date` instances and passes them through |
| Domain.DecodeUnknownRecord | src/domain.ts:92 | `Record(String, Unknown)` accepts exactly objects and keeps all their entries |
| Domain.DecodeStrings | src/domain.ts:111 | the elements decode exactly when all are strings; the result has the same length and the same strings in order |
| Domain.DecodeStringArray | src/domain.ts:111 | `Array(String)` accepts exactly arrays of strings, element for element |
| Domain.DecodeUserId | src/domain.ts:23 | a user id is any string, empty included, branded with that very string |
| Domain.DecodeGroupId | src/domain.ts:27 | a group id is any string, empty included, branded with that very string |
| Domain.UserStatusLiteral | src/domain.ts:34-43 | every status stands for one of the eight literals |
| Domain.DecodeUserStatus | src/domain.ts:34-43 | a status decodes exactly when it is one of the eight literal strings, and the result stands for that literal |
| Domain.GroupTypeLiteral | src/domain.ts:95 | every group type stands for one of the three literals |
| Domain.DecodeGroupType | src/domain.ts:95 | a group type decodes exactly when it is `OKTA_GROUP`, `APP_GROUP` or `BUILT_IN`, and the result stands for that literal |
| Domain.DecodeNullOr | src/domain.ts:100-101 | `NullOr` keeps `null` as a value of its own; anything else decodes exactly as the inner schema decides |
| Domain.NullToUndefined | src/domain.ts:10 | the decode half of `nullToUndefined`: `null` becomes absent, any other value is kept |
| Domain.UndefinedToNull | src/domain.ts:11 | the encode half of `nullToUndefined`: decoding its result gives back its input |
| Domain.DecodeNullToUndefined | src/domain.ts:4-14 | `null` decodes to absent; any other value decodes as the inner schema, and it succeeds exactly when the inner schema does |
| Domain.OptionalProperty | src/domain.ts:49 | `Schema.optional`: a missing key and a key set to `undefined` are absent; any other value succeeds exactly when it decodes, and is then that value; a failure is reported under the key |
| Domain.OptionalNullToUndefinedProperty | src/domain.ts:47 | `optional(nullToUndefined(s))`: a missing key, `undefined` and `null` are all absent; any other value succeeds exactly when it decodes; a failure is reported under the key |
| Domain.NullOrString | src/domain.ts:100 | `NullOr(String)` accepts exactly `null` and strings, keeping `null` as a value of its own |
| DomainProperties.NullToUndefinedRoundTrip | src/domain.ts:10-11 | encoding after decoding gives back the nullable value: `null` and absent correspond one to one |
| DomainProperties.UserProfileAccepted | src/domain.ts:46-70 | a profile decodes exactly when it is an object whose every declared property is `undefined` or has its type; the nullable ones may also be `null` |
| DomainProperties.CredentialsAccepted | src/domain.ts:73-77 | credentials decode exactly when they are an object whose every present credential is `undefined`, `null` or an object |
| DomainProperties.UserAccepted | src/domain.ts:80-93 | all or nothing: a user decodes exactly when every present property is `undefined` or has its declared type, nested profile and credentials included |
| DomainProperties.GroupProfileAccepted | src/domain.ts:98-102 | a group profile decodes exactly when it is an object whose `name`, unless missing or `undefined`, is a string and whose `description` and `externalId` are also allowed `null` |
| DomainProperties.GroupAccepted | src/domain.ts:104-113 | all or nothing: a group decodes exactly when every present property is `undefined` or has its declared type |
| DomainProperties.ProfileNullIsMissing | src/domain.ts:47-69 | for each of the 18 `nullToUndefined` profile properties, `null` and a missing key give the same result |
| DomainProperties.ProfileStrictRejectsNull | src/domain.ts:49-50 | `null` in `email`, `login`, `department`, `employeeNumber` or `locale` fails the profile |
| DomainProperties.UserNullIsMissing | src/domain.ts:83-92 | `null` and a missing key give the same user for `activated`, `lastLogin`, `passwordChanged`, `statusChanged` and `_links` |
| DomainProperties.UserStrictRejectsNull | src/domain.ts:81-91 | `null` in any other user property, `created` and `lastUpdated` included, fails the record |
| DomainProperties.UserProfileNullFailsUser | src/domain.ts:89 | a `null` in a strict profile property fails the user that holds the profile |
| DomainProperties.CredentialsNullIsMissing | src/domain.ts:74-76 | each credential may be `null`, which decodes as if the key were missing |
| DomainProperties.GroupLinksNullIsMissing | src/domain.ts:112 | a group's `_links` decodes `null` as a missing key |
| DomainProperties.GroupStrictRejectsNull | src/domain.ts:105-111 | `null` in any other group property fails the record |
| DomainProperties.GroupProfileKeepsNull | src/domain.ts:100-101 | `null` in `description` or `externalId` is accepted exactly when the key could be missing, and is kept as `null`, not made absent |
| DomainProperties.GroupProfileNameRejectsNull | src/domain.ts:99 | a group profile `name` of `null` fails the profile |
| DomainProperties.UserStatusMustBeLiteral | src/domain.ts:88 | any status string outside the eight literals fails the whole user |
| DomainProperties.UserStatusDecoded | src/domain.ts:88 | a decoded user's status came from its literal on the wire |
| DomainProperties.GroupTypeMustBeLiteral | src/domain.ts:109 | any type string outside the three literals fails the whole group |
| DomainProperties.UserIdAnyString | src/domain.ts:81 | any string id, the empty one included, is accepted exactly when the record without the id is, and becomes the user's id |
| DomainProperties.UserIdMustBeString | src/domain.ts:81 | a user id that is neither a string nor `undefined` fails the record: no partial user is produced |
| DomainProperties.GroupIdAnyString | src/domain.ts:105 | any string id, the empty one included, is accepted exactly when the record without the id is, and becomes the group's id |
| DomainProperties.GroupIdMustBeString | src/domain.ts:105 | a group id that is neither a string nor `undefined` fails the record |
| DomainProperties.ProfileErrorAtKey | src/domain.ts:46-70 | `UserProfileSchema`: a non-object fails at the root; any other failure is reported under one of the 23 declared keys |
| DomainProperties.CredentialsErrorAtKey | src/domain.ts:73-77 | `UserCredentialsSchema`: a non-object fails at the root; any other failure is reported under one of the three credential keys |
| DomainProperties.UserErrorAtKey | src/domain.ts:80-93 | `OktaUserSchema`: a non-object fails at the root; any other failure is reported under one of the twelve declared keys |
| DomainProperties.GroupProfileErrorAtKey | src/domain.ts:98-102 | `GroupProfileSchema`: a non-object fails at the root; any other failure is reported under `name`, `description` or `externalId` |
| DomainProperties.GroupErrorAtKey | src/domain.ts:104-113 | `OktaGroupSchema`: a non-object fails at the root; any other failure is reported under one of the eight declared keys |
| DomainProperties.ProfileUndefinedIsMissing | src/domain.ts:46-70 | any profile key set to `undefined` gives the same result as the key missing |
| DomainProperties.CredentialsUndefinedIsMissing | src/domain.ts:73-77 | any credentials key set to `undefined` gives the same result as the key missing |
| DomainProperties.UserUndefinedIsMissing | src/domain.ts:80-93 | any user key set to `undefined` gives the same result as the key missing, the strict properties included |
| DomainProperties.GroupProfileUndefinedIsMissing | src/domain.ts:98-102 | any group profile key set to `undefined` gives the same result as the key missing, `description` and `externalId` included |
| DomainProperties.GroupUndefinedIsMissing | src/domain.ts:104-113 | any group key set to `undefined` gives the same result as the key missing |
| DomainProperties.UserProfileRoundTrip | src/domain.ts:46-70 | a profile, encoded with absent properties left out, decodes back to itself |
| DomainProperties.UserCredentialsRoundTrip | src/domain.ts:73-77 | credentials, encoded, decode back to themselves |
| DomainProperties.UserRoundTrip | src/domain.ts:80-93 | a user record, encoded with its nested profile and credentials, decodes back to itself |
| DomainProperties.GroupProfileRoundTrip | src/domain.ts:98-102 | a group profile, with `null` description or external id encoded as `null`, decodes back to itself |
| DomainProperties.GroupRoundTrip | src/domain.ts:104-113 | a group record, encoded, decodes back to itself |
| Sdk.NonNullItems | src/client.ts:95 | `filter(item !== null)`: no longer than its input, and never yields `null` |
| Sdk.NonNullItemsAppend | src/client.ts:95 | the filter distributes over concatenation, so it keeps the order of what it keeps |
| Sdk.NonNullItemsCounts | src/okta.ts:88 | exactly the `null` entries are removed: every other value keeps its number of occurrences |
| Sdk.NonNullItemsKeepsAll | src/okta.ts:88 | a sequence without `null` passes the filter unchanged |
| Sdk.Next | src/client.ts:92 | the iterator yields the items in order, then ends or faults as the collection does |
| Client.Make | src/client.ts:21-25 | `make` wraps the constructed client; a constructor throw is a defect, never an `OktaClientError` |
| Client.Attempt | src/client.ts:29-48 | a plain result or a fulfilled promise passes through unchanged; a throw and a rejection become `OktaClientError` with the cause and the sync or async message |
| Client.Backoff | src/client.ts:49 | the retry delays start at 100 ms and double each time |
| Client.Retried | src/client.ts:49 | 1 to 4 calls; the result is the last call's; every earlier call failed; a failure means all 4 calls were made |
| Client.RetriedDelays | src/client.ts:49 | the delays waited are those before each retry actually made |
| Client.Use | src/client.ts:27-49 | the retry loop makes at most 1 + 3 calls, stops at the first success, and waits 100, 200, 400 ms; its result, calls and delays are those of `Retried` |
| Client.RetryUnique | src/client.ts:49 | whatever satisfies the retry's contract is unique: the same calls and the same result |
| Client.FirstSuccessWins | src/client.ts:49 | when attempt `j` is the first to succeed, its value is returned after exactly `j + 1` calls and no further attempt is made |
| Client.AllAttemptsFail | src/client.ts:49 | when all four attempts fail, the error of the last one is the result |
| Client.EndOf | src/client.ts:92-95 | an iteration fault ends the stream with `OktaClientError` that carries the cause and no message |
| Client.Drained | src/client.ts:89-96 | what draining yields: no `null`, every other value as often as in the collection, a clean end exactly when the collection ends cleanly, and a fault carried with its cause |
| Client.CollectionToStream | src/client.ts:89-96 | the pull loop yields exactly `Drained`: the items with the `null` entries removed, in order, then the collection's end |
| Client.DecodedRunPrefix | src/client.ts:67-68 | the decoded stream is a prefix of the drained items, each decoded; it reaches the collection's end only after all of them, and otherwise stops at the first item that fails to decode, with that item's error as a defect |
| Client.ListRunEnds | src/client.ts:64-87 | a failed call gives an empty stream with its error; a defect comes only after a successful call; a typed error after a successful call is the iteration fault's cause |
| Client.AllItemsDecode | src/client.ts:67-69 | when every item decodes, the stream yields all of them decoded, in order, then the collection's end |
| Client.FirstDecodeFailure | src/client.ts:68 | at the first item that fails to decode, the stream stops with a defect after the items before it, whatever the collection's end |
| Client.ListYieldsDecodedItems | src/client.ts:64-70 | a successful call yields the decoded non-null items in collection order and ends as the collection does |
| Client.RetryIsTransparent | src/client.ts:49 | success on a later attempt yields the same stream as success on the first |
| Client.RetryExhausted | src/client.ts:49 | exhausted retries yield an empty stream failing with the last attempt's error |
| Client.DecodeEach | src/client.ts:67-68 | pulling and decoding item by item gives the stream of `Drained` (what `CollectionToStream` yields) decoded by `DecodedRun`, stopping at the first decode failure |
| Client.ListWith | src/client.ts:64-87 | a list operation makes exactly the calls of the retry and yields the decoded stream of its result; iteration faults and decode failures are not retried |
| Client.ListOktaUsers | src/client.ts:64-70 | `listUsers` through the retrying `use`, each item decoded as a user |
| Client.ListOktaGroups | src/client.ts:72-78 | `listGroups` through the retrying `use`, each item decoded as a group |
| Client.ListOktaGroupMembers | src/client.ts:80-87 | `listGroupUsers` with the group id unchanged, through the retrying `use`, each item decoded as a user |
| Okta.Make | src/okta.ts:19-24 | a constructor throw becomes `OktaError` with the cause and "Failed to create Okta client"; otherwise the handle wraps the client |
| Okta.Use | src/okta.ts:26-48 | one invocation, no retry: a plain or fulfilled result passes through; a throw and a rejection become `OktaError` with the sync or async message |
| Okta.EndOf | src/okta.ts:85-88 | an iteration fault ends the stream with `OktaError` that carries the cause and no message |
| Okta.Drained | src/okta.ts:82-89 | what draining yields: no `null`, every other value as often as in the collection, a clean end exactly when the collection ends cleanly, and a fault carried with its cause |
| Okta.CollectionToStream | src/okta.ts:82-89 | the pull loop yields exactly `Drained`: the items with the `null` entries removed, in order, then the collection's end |
| Okta.ListRun | src/okta.ts:63-80 | a failed call gives an empty stream with its error; otherwise the raw items without `null`, each as often as in the collection; a clean end exactly when the call succeeded and the collection ended cleanly |
| Okta.ListWith | src/okta.ts:63-80 | a list operation is one call through `use`, then the raw stream; with no decoding there is no defect end |
| Okta.ListOktaUsers | src/okta.ts:63-67 | `listUsers` is invoked exactly once, its items streamed raw |
| Okta.ListOktaGroups | src/okta.ts:69-73 | `listGroups` is invoked exactly once, its items streamed raw |
| Okta.ListOktaGroupMembers | src/okta.ts:75-80 | `listGroupUsers` is invoked exactly once with the group id unchanged |
| Variants.UseAgreesWithAttempt | src/okta.ts:28-47 | the two revisions normalise one invocation alike: the same value, cause and message |
| Variants.OneCallExactlyWhenFirstSucceeds | src/client.ts:49 | the retrying `use` stops after one call exactly when the earlier revision's single call succeeds, and then gives the same value |
| Variants.DecodedStreamMapsRawStream | src/client.ts:67-69 | on the same collection, the decoding stream is the raw stream of the earlier revision decoded item by item, ending as the raw stream does (same cause and message) unless an item fails to decode |
| Variants.DecodedStreamWhenAllDecode | src/client.ts:67-69 | when every raw item decodes, the decoding stream is the raw items decoded, with the raw stream's end |

## Left out

- `src/asset-detector.ts` is not part of this model. It runs users and groups concurrently, fans out per group, cancels siblings, and logs. The group-id `Option.getOrThrow` there is not modelled either.
- `src/Program.ts` is not part of this model: it is an entry point that logs, times and runs the program.
- `fromEnv` in both revisions reads environment variables. This is I/O, so a `Config` value is taken as given.
- The Okta SDK and its cursor-based paging are a foreign library. A collection is an item sequence ending in `End` or `IterError`, and each invocation's outcome is a parameter (`Api`).
- Real time and Effect's scheduler are not modelled: backoff is the list of delays waited, in milliseconds.
- Client.Use: the retry applies to every fault of the wrapped call, as the code does. Only the delays are recorded, not when they elapse.
- Client.DecodeEach: it describes the stream as a consumer that drains it sees. It does not model backpressure, or how far the SDK iterator has paged when decoding stops.
- Struct and record schemas here accept only objects. Effect Schema's own object test also admits arrays and some class instances; the SDK never hands those over as records.
- A property that decodes to `undefined` leaves a key present with value `undefined` in the decoded record. This happens for a key set to `undefined`, and for `null` under `nullToUndefined`. The model records it as absent (`Opt.Absent`), which is how every reader of the record sees it.
- Excess keys, which Effect Schema ignores by default, are ignored here too; `Date` internals are opaque (`Date(epochMillis)`).
- `DecodeError` keeps the key path, what was expected and the offending value. It does not reproduce Effect's `ParseError` message text, or the element index inside `objectClass`.
- `OktaError` and `GroupNotFoundError` in `src/domain.ts` are declared and never raised, so they have no counterpart.
