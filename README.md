# Email dispatch with retries and provider fallback — a Dafny model

This project models the core of an e-mail sending service written in
TypeScript. The service holds an ordered list of delivery providers and a
retry limit (3 unless the constructor is given one). `sendEmail` tries the
providers in list order. Each provider gets up to `retryLimit` attempts. A
provider that returns `true` ends the call with `true` at once. A returned
`false` and a thrown error are both a failed attempt. After every failed
attempt the service waits an exponentially growing delay:
`min(2^attempt * 100, maxDelay)` ms, with `maxDelay` 10000 by default. It
waits after the last attempt on a provider too. When every provider has used
up its attempts, the result is `false`.

Files:

- `backoff.dfy` (module `Backoff`): the delay rule of
  `src/utils/ExponentialBackoff.ts` as a pure function `Delay`, with lemmas
  on the cap, monotonicity, doubling and the default values.
- `providers.dfy` (module `Providers`): the provider interface and the two
  mocks of `src/services/EmailProvider.ts`. A provider is a datatype:
  `MockEmailProvider1` (always returns false), `MockEmailProvider2` (always
  returns true), or `Other(respond)` for any other implementation.
  `respond(m, k)` is what the provider at its list position yields when its
  attempt counter is `k`: `Returned(b)` or `Threw(error)`. Within one
  `sendEmail` call each (list position, attempt counter) pair is reached at
  most once and in a fixed order, so this covers every behaviour of a list
  entry during one dispatch.
- `email_service.dfy` (module `Service`): the class `EmailService`, its
  constructor and `SendEmail`. `SendEmail` is a `for` loop over the
  providers around a `while` loop on the attempt counter, as in the source.
  It returns the boolean result and, as ghost values, the trace of provider
  calls (`Call(provider index, attempt counter, outcome)`) and the backoffs
  waited (`Wait(attempt number passed, delay)`). Its postcondition says that
  these three equal `Dispatch`, the specification function of a whole
  dispatch.
- `dispatch_properties.dfy` (module `DispatchProperties`): what a dispatch
  promises, proved about `Dispatch` and so about every `SendEmail` call:
  the order of calls, the per-provider bound, early exit, exhaustion,
  backoff placement and arguments, the treatment of thrown errors, and the
  repository's test scenario.

Conventions: a `Call`'s `attempt` is the value of the source's `attempt`
counter when the provider is called (0, 1, ...). The backoff after that call
is given the counter after its increment (1, 2, ...). `Budget(limit)` is the
number of attempts a provider gets: `retryLimit` when it is positive, else 0.

The service waits after every failed attempt, the last one on a provider
included (`src/services/EmailService.ts:27-28`), and the model does the same.

## Model

| member | source | states |
|---|---|---|
| `Backoff.Pow2` | src/utils/ExponentialBackoff.ts:2 | 2^n, as a natural number, is at least 1 (so every uncapped delay is at least 100 ms) |
| `Backoff.Delay` | src/utils/ExponentialBackoff.ts:1-2 | the delay is min(100 * 2^attempt, maxDelay): never above the cap, never above the uncapped value, and equal to one of the two |
| `Backoff.DelayMonotone` | src/utils/ExponentialBackoff.ts:2 | for a fixed cap, a later attempt never gets a shorter delay |
| `Backoff.DelayDoublesBelowCap` | src/utils/ExponentialBackoff.ts:2 | while the next attempt's uncapped delay fits under the cap, the delay exactly doubles from one attempt to the next |
| `Backoff.CapIsSticky` | src/utils/ExponentialBackoff.ts:2 | once an attempt's delay equals the cap, every later attempt's delay equals the cap |
| `Backoff.DefaultDelays` | src/utils/ExponentialBackoff.ts:1-2 | with the default cap 10000: attempts 1, 2, 3, 5, 6 wait 200, 400, 800, 3200, 6400 ms and attempt 7 waits 10000 ms |
| `Backoff.DefaultCapFromSeven` | src/utils/ExponentialBackoff.ts:1-2 | with the default cap, every attempt from 7 on waits exactly 10000 ms |
| `Providers.Mock1NeverDelivers` | src/services/EmailProvider.ts:5-9 | the first mock returns false for every recipient, subject and body |
| `Providers.Mock2AlwaysDelivers` | src/services/EmailProvider.ts:12-16 | the second mock returns true for every recipient, subject and body |
| `Providers.Send` | src/services/EmailProvider.ts:1-17 | one provider call: the first mock returns false and the second returns true, for every message, without throwing; any other provider answers what its `respond` gives for the message and the attempt counter |
| `Providers.Delivered` | src/services/EmailService.ts:17-25 | a call counts as a delivery exactly when it returned `true`; a returned `false` and a thrown error are both failed attempts |
| `Service.BackoffAfter` | src/services/EmailService.ts:27-28 | the wait after the counter is incremented to `attempt`: it is given `attempt` and waits `Delay(attempt, 10000)`, never more than 10000 ms |
| `Service.RunFrom` | src/services/EmailService.ts:14-34 | the rest of a dispatch from provider i with counter k: at most one backoff per call, and a successful run ends with a delivering call |
| `Service.Dispatch` | src/services/EmailService.ts:13-35 | the whole dispatch from provider 0 with counter 0: at most one backoff per call, a successful run ends with a delivering call, and an empty provider list gives false with no call and no wait |
| `Service.EmailService.constructor` | src/services/EmailService.ts:8-11 | the service keeps the given providers and retry limit; the retry limit defaults to 3 |
| `Service.EmailService.SendEmail` | src/services/EmailService.ts:13-35 | returns the result of `Dispatch` for this message, and the provider calls it made and the backoffs it waited are exactly those of `Dispatch`; it never rethrows a provider's error |
| `DispatchProperties.DispatchTrace` | src/services/EmailService.ts:14-29 | the j-th call is attempt j mod R of provider j div R (R the retry limit): providers in list order, attempts from 0 upward, at most providers × R calls, and each call records what its provider yielded |
| `DispatchProperties.ProvidersTriedInOrder` | src/services/EmailService.ts:14-29 | of two calls, the earlier is on an earlier provider, or on the same provider with a smaller attempt counter |
| `DispatchProperties.FallbackOnlyAfterAllRetries` | src/services/EmailService.ts:14-29 | a provider after the first is first called only right after the previous provider failed exactly retryLimit times, on attempts 0 .. retryLimit - 1 in order |
| `DispatchProperties.DispatchCallCounts` | src/services/EmailService.ts:15-29 | no list entry is called more than retryLimit times, an index outside the list never, and on failure every list entry exactly retryLimit times |
| `DispatchProperties.DispatchVerdict` | src/services/EmailService.ts:17-34 | the result is true iff some call delivered; on success that call is the last one made; every earlier call failed; on failure exactly providers × retryLimit calls were made |
| `DispatchProperties.DispatchBackoffs` | src/services/EmailService.ts:27-28 | every failed call, a provider's last included, is followed by exactly one backoff, given that call's attempt number plus one and waiting its delay with the default cap; a delivery is followed by none |
| `DispatchProperties.ExhaustedBackoffs` | src/services/EmailService.ts:15-29 | in a failed dispatch, provider p's calls and backoffs sit at positions p × R .. p × R + R - 1, with attempts 0 .. R - 1 and backoff arguments 1 .. R in order |
| `DispatchProperties.AllProvidersFail` | src/services/EmailService.ts:14-34 | if no provider delivers on any call, the result is false after exactly providers × retryLimit calls and as many backoffs |
| `DispatchProperties.NothingToTry` | src/services/EmailService.ts:14-34 | with no provider or a retry limit of 0 or less, nothing is called, nothing is waited and the result is false |
| `DispatchProperties.OnlyDeliveryMatters` | src/services/EmailService.ts:17-28 | a thrown error is handled exactly like a returned false: provider lists that deliver on the same calls give the same result, the same calls and the same backoffs |
| `DispatchProperties.FallbackScenario` | src/__tests__/EmailService.test.ts:8-16 | with [MockEmailProvider1, MockEmailProvider2] and the default limit: three failed calls on the first mock, one delivering call on the second, backoffs with attempts 1, 2, 3 (200, 400, 800 ms), result true |
| `DispatchProperties.FallbackThroughService` | src/__tests__/EmailService.test.ts:7-17 | a service constructed with the two mocks and no retry limit delivers, after waiting three backoffs (so at least one "Retrying after" wait happens) |

## Left out

- The actual waiting (`setTimeout` and the Promise in `src/utils/ExponentialBackoff.ts:4`) and the async/await machinery: a wait is recorded as a ghost `Wait` holding the computed delay.
- All console output (`src/services/EmailService.ts:20,24,31`, `src/utils/ExponentialBackoff.ts:3`, the mocks' logging) and `provider.constructor.name`, which only feeds that output. The logging's own failures are not modelled either: formatting a thrown Symbol or a prototype-less object at line 24, or reading `constructor.name` of a prototype-less provider at lines 20, 24 and 31, throws, and `sendEmail` then rejects, which the model never does.
- Thrown values are modelled as strings (`Threw(error: string)`); what a provider throws beyond that is not captured.
- The provider list is a snapshot: the service keeps the caller's array by reference (`src/services/EmailService.ts:9`) and the loop at line 14 sees later changes to it, while the model's `providers` is an immutable sequence. The test's check for a "Retrying after" message is modelled as "at least one backoff was waited".
- Floating point: `Math.pow` is modelled as exact natural-number exponentiation, and `retryLimit` and `maxDelay` as integers. A fractional or NaN `retryLimit` is not modelled.
- A provider's state across separate `sendEmail` calls: an `Other` provider's answers are indexed by its attempt counter within one dispatch only.
- A provider object listed twice (`[p, p]`, `src/services/EmailService.ts:5,14`) is modelled as two independent list entries: the state such an object shares between its two positions is not captured, and the per-entry call bound does not bound the calls on the object.
- `retryLimit = Infinity`: the loop at `src/services/EmailService.ts:16` then retries a failing provider forever. The model's retry limit is an integer, so every dispatch ends.
- A provider whose promise never settles stalls `await provider.sendEmail(...)` (`src/services/EmailService.ts:18`) forever. In the model every provider call answers.
- The interleaving of calls and backoffs: calls and waits are two ghost sequences paired by index, so no contract states that backoff j is waited before call j + 1.
- The error value a provider throws is recorded in the trace but otherwise dropped, as in the source.
- `server.ts`, `dist/server.js` (the HTTP shell) and `src/index.ts` (a demo that logs the result) are not part of this model.
- `src/types/EmailStatus.ts` declares a status record (with `idempotencyKey`, `attempts` and `success`), but no code constructs or reads it; no rate limiting, idempotency suppression or status history exists in the code, so none is modelled.
