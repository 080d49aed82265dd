# On-behalf-of scopes of the CurrencyCloud Java client

`CurrencyCloudClient` can act on behalf of another account for a block of
calls. `onBehalfOfDo(id, work)` checks that `id` is a UUID. It refuses to
start while another on-behalf-of scope is active. Otherwise it stores `id` in
the client's override slot, which `getOnBehalfOf()` reads. It then runs
`work` and clears the slot on every exit path, letting any exception of
`work` reach the caller.

The implementation class is not part of this model. Its contract is fixed by
the client's test suite, and this project is built from that contract.

- `java_lang.dfy` (`JavaLang`): `Nullable` stands in for a Java reference
  that may be `null`, and `Contains` for Java's `String.contains`.
- `uuid.dfy` (`Uuid`): the 8-4-4-4-12 hexadecimal form an id must have.
  It is defined position by position. A round trip through its five groups
  shows that this is the grouped form.
- `on_behalf_of.dfy` (`OnBehalfOf`): the client and its slot. `Work`
  is the body of a `Runnable`, written as steps: read the slot, throw a
  `CurrencyCloudException`, call `onBehalfOfDo` again, or catch a failing
  block. `Enter` (the call) and `Run` (the work) interpret it. They return
  the outcome (normal return or the exception), the client afterwards, and a
  trace of the steps of work that actually ran. `Scoped` is an independent
  reference meaning of work inside a single-depth scope: every read yields
  the scope's id and every nested call is refused.
- `scenarios.dfy` (`Scenarios`): the four test scenarios, each on a fresh
  client.

## Model

| member | source | states |
|---|---|---|
| Uuid.JoinedGroupsAreUuid | src/test/java/com/currencycloud/client/CurrencyCloudClientOnBehalfOfTest.java:16 | five hex groups of lengths 8, 4, 4, 4 and 12, joined by hyphens, form an accepted id |
| Uuid.UuidSplitsIntoGroups | src/test/java/com/currencycloud/client/CurrencyCloudClientOnBehalfOfTest.java:16 | every accepted id consists of five hex groups of lengths 8-4-4-4-12, and joining them gives the id back |
| OnBehalfOf.NewClient | src/test/java/com/currencycloud/client/CurrencyCloudClientOnBehalfOfTest.java:12-17 | a freshly constructed client has no override and keeps its server address |
| OnBehalfOf.Clear | src/test/java/com/currencycloud/client/CurrencyCloudClientOnBehalfOfTest.java:24 | the reset at the end of a call leaves the slot empty and the server address unchanged, and it changes nothing on a client that has no override |
| OnBehalfOf.Refusal | src/test/java/com/currencycloud/client/CurrencyCloudClientOnBehalfOfTest.java:51-75 | a call is refused exactly when the id is malformed or a scope is active; a malformed id gives IllegalArgument with "is not a UUID", and nesting gives IllegalState with "Can't nest on-behalf-of calls" |
| OnBehalfOf.Enter | src/test/java/com/currencycloud/client/CurrencyCloudClientOnBehalfOfTest.java:14-77 | every call returns the client as it found it, so an idle client ends idle; a refused call runs no work; inside an accepted call every read sees exactly the id; an escaping failure is one the work raised; refusal messages carry the asserted fragments |
| OnBehalfOf.Run | src/test/java/com/currencycloud/client/CurrencyCloudClientOnBehalfOfTest.java:18-23 | work leaves the client as it found it (nested calls restore the slot); inside a scope every read of the slot sees the scope's id |
| OnBehalfOf.RunInScopeIsScoped | src/test/java/com/currencycloud/client/CurrencyCloudClientOnBehalfOfTest.java:48-57 | inside an active scope, running work gives the same outcome and trace as the single-depth reference meaning |
| OnBehalfOf.EnterFollowsScoped | src/test/java/com/currencycloud/client/CurrencyCloudClientOnBehalfOfTest.java:15-25 | an accepted call from an idle client has the outcome and trace of the reference meaning for its id, and it ends idle |
| OnBehalfOf.WorkFailurePropagates | src/test/java/com/currencycloud/client/CurrencyCloudClientOnBehalfOfTest.java:28-40 | a failure thrown after the slot is read (or after a caught block) reaches the caller unchanged, and the client ends idle |
| OnBehalfOf.NestedCallIsRefused | src/test/java/com/currencycloud/client/CurrencyCloudClientOnBehalfOfTest.java:44-61 | a nested call inside a scope fails with IllegalState and its body never runs; a read made after catching that failure still sees the outer id |
| OnBehalfOf.SequentialCallsDoNotLeak | src/test/java/com/currencycloud/client/CurrencyCloudClientOnBehalfOfTest.java:17-24 | a second call on a client that was used before, whether the first call was accepted or refused, behaves as on a fresh client and sees only its own id |
| Scenarios.OboIsUuid | src/test/java/com/currencycloud/client/CurrencyCloudClientOnBehalfOfTest.java:16 | the id of the first three tests has the UUID form |
| Scenarios.NestedOboIsUuid | src/test/java/com/currencycloud/client/CurrencyCloudClientOnBehalfOfTest.java:51 | the nested id of the reentrancy test has the UUID form |
| Scenarios.SetsTheValueAndRemovesItWhenDone | src/test/java/com/currencycloud/client/CurrencyCloudClientOnBehalfOfTest.java:15-25 | the fresh slot is empty, the work sees the id, the call returns normally, and the slot is empty again |
| Scenarios.StillRemovesTheValueOnError | src/test/java/com/currencycloud/client/CurrencyCloudClientOnBehalfOfTest.java:28-40 | the work sees the id and then throws; the same exception reaches the caller and the slot is empty again |
| Scenarios.PreventsReentrantUsage | src/test/java/com/currencycloud/client/CurrencyCloudClientOnBehalfOfTest.java:44-61 | the nested call fails with "Can't nest on-behalf-of calls", its throwing body never runs, and the slot is empty after the outer call |
| Scenarios.PreventsIllegalIdFormat | src/test/java/com/currencycloud/client/CurrencyCloudClientOnBehalfOfTest.java:65-77 | "Richard Nienaber" is refused with "is not a UUID", the work never runs, and the slot stays empty |

## Left out

- CurrencyCloudClient.java is not part of this model. Its behaviour is modelled from the contract its tests assert.
- OnBehalfOf.Refusal checks the id's format before it checks for an active scope. The client's tests do not tell the two orders apart, because the nested id in the reentrancy test is a well-formed UUID.
- The exact regular expression for ids is not part of this model. The model accepts 8-4-4-4-12 hexadecimal digits in either letter case.
- The full exception messages are not fixed by the tests. The model builds them around the asserted fragments: `<id> is not a UUID` and `Can't nest on-behalf-of calls`.
- A `null` id is not modelled, because ids are plain strings here.
- Work is a finite program, so every run terminates. Work that never returns, which would leave the slot set, is not modelled.
- `Try` catches every failure of its block. Java catch clauses that select an exception type are not modelled.
- How the override is attached to outgoing HTTP requests is not modelled. The transport is not part of this model.
- Use of one client from several threads is not modelled. The model assumes a single call chain per client.
- ActionsTest.java is not modelled. It checks field values of recorded HTTP responses (beneficiaries, accounts, balances), not behaviour of the client's own logic.
