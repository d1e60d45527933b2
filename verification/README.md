# Burger code acquisition pipeline, modelled in Dafny

This project models the code-acquisition core of the BurgerCodes app (`api/index.ts`). One run of
`generateCodes` does the following, in order:

1. It draws a random device id, upper-cases it, signs it as `md5(id + PEPPER)`, and builds the
   request headers: the fixed header set plus `x-device`.
2. It obtains a challenge token.
3. It calls the remote API's `initialize` endpoint, then fetches the active operations.
4. It extracts up to two restaurant coupon codes of the "Burger Mystère ou Veggie Mystère"
   promotion. When there are none it throws `OfferNotAvailableError`.
5. It confirms the user's choice (B or V) against each code, concurrently.
6. It turns each code into a final code: the choice letter followed by the code minus its first
   character.

Every remote call goes through `retryOn503`. That retry loop retries HTTP 500/503 failures after
a fixed delay and rethrows every other failure at once. After `maxRetries` attempts it throws a
distinct error.

Modules, one per component, leaf first:

- `Errors` (`errors.dfy`): the error kinds, including the dedicated `OfferNotAvailable`, and
  `Result`/`Option`.
- `Api` (`api.dfy`): operations, coupons, request bodies, the three kinds of remote request,
  responses, the choice-to-letter and choice-to-promotion-id tables, and `Send`.
- `RetryPolicy` (`retry.dfy`): the pure `Retry` specification and the imperative `RetryOn503`
  loop, proved equal.
- `Identity` (`identity.dfy`): upper-casing the id, the keyed hash, the device headers.
- `Extraction` (`extraction.dfy`): the pure "first two of the concatenated codes of the matching
  operations" (`RestaurantCodes`) and the imperative scan with its early `break`
  (`GetRestaurantCodes`), proved equal.
- `Activation` (`activation.dfy`): the confirmation fan-out and fan-in, the all-or-nothing status
  check, and the code synthesis.
- `Pipeline` (`pipeline.dfy`): the orchestrator. `RunPipeline` is the pure composition of the stages,
  and the imperative `GenerateCodes` method is proved equal to it. Lemmas cover stage order,
  signing, success, error propagation and the offer-unavailable condition.

The outside world is a value of type `Pipeline.Environment`:

- the UUID string drawn for the run;
- the digest function `md5`, passed in as a parameter;
- the challenge resolver's outcome;
- `server(slot, request, k)`: the outcome of the k-th attempt of a request. `slot` is the request's position among the requests its stage sends side by side: 0 for initialize and fetch, i for the i-th confirmation. Two identical confirmations, such as those for a coupon listed twice, are therefore answered independently.

A run returns the calls it made, in order. Each call records its request, how many times it was
sent, and how many retry delays were waited for it. Each counted delay stands for one wait of
`RETRY_DELAY` = 1000 ms.

Some behaviour of the program worth knowing when reading the model:

- Extraction does not stop at the first matching operation. It keeps scanning while fewer than
  two codes have been collected, and it may return a single code.
- With a single code, the run still sends one confirmation. It then fails reading the missing
  second code (`Error.UndefinedCode`), so no codes are produced (`PipelineSingleCodeFails`).
- The payload is not checked after decoding.
- A confirmation answered with a status other than 200 raises a plain `Error`, modelled as
  `ActivationFailed`.

## Model

| member | source | states |
|---|---|---|
| `RetryPolicy.FirstSettled` | api/index.ts:84-93 | the first attempt in a range whose outcome is not a 500/503 HTTP failure: every earlier attempt was transient, and the found one is not |
| `RetryPolicy.Retry` | api/index.ts:83-96 | at most `maxRetries` invocations (none when it is not positive); every invocation but the last failed transiently; a success or fatal failure is returned or rethrown unchanged after one delay per earlier attempt; otherwise exactly `maxRetries` invocations and delays, then `MaxRetriesReached` |
| `RetryPolicy.RetryOn503` | api/index.ts:83-96 | the counted retry loop returns exactly the result, invocation count and delay count of `Retry` |
| `RetryPolicy.RetrySettlesAt` | api/index.ts:84-92 | after k transient failures, a success or fatal failure at attempt k is returned unchanged after k+1 invocations and k delays |
| `RetryPolicy.RetryFatalFirstAttempt` | api/index.ts:87-90 | a non-HTTP failure, or an HTTP failure whose status is neither 500 nor 503 (including no response), is rethrown after one invocation and no delay |
| `RetryPolicy.RetryExhausted` | api/index.ts:84-95 | when every allowed attempt is transient: exactly `maxRetries` invocations and delays (one after the last attempt too), then the max-retries error; zero invocations when `maxRetries <= 0` |
| `RetryPolicy.RetryResultOrigin` | api/index.ts:86-95 | a transient failure never escapes the policy; the result is one of the operation's own outcomes or the max-retries error |
| `Identity.ToUpperCase` | api/index.ts:169 | the id keeps its length, holds no lower-case ASCII letter, keeps every other character, and maps each lower-case letter to its upper-case form |
| `Identity.ToUpperCaseIdempotent` | api/index.ts:169 | upper-casing an upper-cased id changes nothing |
| `Identity.HashBindsId` | api/index.ts:99 | `generateHash` signs the id followed by the secret, so with a collision-free digest two ids get the same hash exactly when they are the same id |
| `Identity.CreateDeviceHeaders` | api/index.ts:102-105 | the headers are the fixed set plus `x-device`; `x-device` carries the device id and every fixed header keeps its value |
| `Identity.DeviceHeadersDifferOnlyInDevice` | api/index.ts:102-105 | two runs' headers are equal exactly when their device ids are, and agree on every header other than `x-device` |
| `Extraction.CouponCodes` | api/index.ts:134 | an operation contributes the `restaurantCode` of each of its coupons, in order; a missing `coupons` field contributes nothing |
| `Extraction.MatchingCodesAppend` | api/index.ts:132-137 | the codes collected from two consecutive runs of operations are the concatenation of the codes from each |
| `Extraction.NonTargetIgnored` | api/index.ts:133 | an operation matching neither the target name nor the target code contributes nothing, wherever it stands |
| `Extraction.TargetContributes` | api/index.ts:133-134 | an operation matching the target name or the target code contributes all its coupon codes at its position |
| `Extraction.RestaurantCodes` | api/index.ts:139-140 | `OfferNotAvailable` exactly when no matching code exists; otherwise the first one or two matching codes in input order (a prefix of length min(2, total)) |
| `Extraction.GetRestaurantCodes` | api/index.ts:124-141 | the scan with its early `break` once two codes are held returns exactly `RestaurantCodes` |
| `Activation.Synthesize` | api/index.ts:160-163 | a final code begins with the choice letter, keeps every character of the raw code from index 1 on, and keeps the raw code's length when it is not empty |
| `Activation.SynthesizeExample` | api/index.ts:161 | raw code "X123456" with choice B gives "B123456" |
| `Activation.DuplicateCodeConfirmedTwice` | api/index.ts:150-158 | a coupon listed twice is confirmed twice, by two identical requests answered independently; when the second is refused the activation fails |
| `Activation.FirstRejected` | api/index.ts:150-154 | the first confirmation, in code order, whose retried call was rejected: all earlier ones answered |
| `Activation.ConfirmationCalls` | api/index.ts:145-154 | one confirmation per code, the i-th carrying `codes[i]` and the promotion id of `choices[i]` with the run's body and headers, each recorded with its retry policy's attempts and delays |
| `Activation.ActivateBurgerCodes` | api/index.ts:143-164 | the calls made are exactly the confirmation calls, one per code, all of them issued |
| `Activation.ActivationOutcome` | api/index.ts:150-163 | a rejected confirmation is passed on unchanged; otherwise a status other than 200 gives `ActivationFailed`; otherwise two codes are synthesized from the two raw codes, or reading a missing code fails |
| `Activation.ActivationAllOrNothing` | api/index.ts:156-163 | codes are produced exactly when there are two raw codes and both confirmations answered 200 |
| `Activation.ActivationErrors` | api/index.ts:150-162 | an activation error is the max-retries error, `ActivationFailed`, `UndefinedCode`, or a non-transient error the server returned for one of the confirmations |
| `Pipeline.InitializeStage` | api/index.ts:107-111 | `initializeApi` sends the headers alone through the retry policy: at least one and at most `MAX_RETRIES` attempts, and the outcome is the server's answer to the last attempt, never a 500 or 503, or the max-retries error |
| `Pipeline.FetchStage` | api/index.ts:113-122 | `fetchOperations` sends the body and headers through the retry policy: at least one and at most `MAX_RETRIES` attempts, and the outcome is the server's answer to the last attempt, never a 500 or 503, or the max-retries error |
| `Pipeline.RemoteStages` | api/index.ts:177-186 | the remote part of a run makes one to four calls, initialize first and fetch second, and four when it produced codes |
| `Pipeline.RunPipeline` | api/index.ts:167-191 | a run makes at most four calls, none exactly when the challenge failed, and four when it produced codes |
| `Pipeline.GenerateCodes` | api/index.ts:167-191 | the sequential orchestration makes exactly the calls and returns exactly the result of `RunPipeline` |
| `Pipeline.RemoteStagesShape` | api/index.ts:177-186 | the calls are initialize, then fetch only after initialize succeeded, then exactly the activation's confirmations only after extraction succeeded, each with its own retry counts |
| `Pipeline.RemoteStagesInOrder` | api/index.ts:177-186 | calls go initialize, fetch, then at most two confirmations, and each stage starts only after the previous one succeeded |
| `Pipeline.RemoteStagesRecordRetries` | api/index.ts:107-122 | every recorded call carries the attempt and delay counts of its own retry policy, run in its own slot |
| `Pipeline.RemoteStagesCarry` | api/index.ts:107-122 | every call carries the run's headers, and every call after initialize carries the run's body |
| `Pipeline.PipelineStagesInOrder` | api/index.ts:169-186 | no remote call happens before the challenge is resolved; then initialize, fetch and confirmations in that order, each after the previous stage succeeded, each with its own retry counts |
| `Pipeline.PipelineSignsEveryRequest` | api/index.ts:169-175 | every request carries `createDeviceHeaders(id)` with the upper-cased id; every body carries king = id, hash = `md5(id + PEPPER)` (`generateHash`, line 99) and queen = the challenge token |
| `Pipeline.RemoteStagesSuccess` | api/index.ts:177-186 | a successful run of the remote stages made four calls, confirmed the first two matching codes against the chosen promotion, and returns both synthesized codes |
| `Pipeline.PipelineSuccess` | api/index.ts:177-186 | a successful run made four calls, confirmed the first two matching codes both against the promotion of the one chosen variant (`[choice, choice]`), and returns both codes tagged with its letter |
| `Pipeline.PipelineChallengeFailure` | api/index.ts:171-175 | a failed challenge ends the run with the resolver's own error, before any remote call |
| `Pipeline.PipelineHaltsOnFirstError` | api/index.ts:177-190 | a run stopped after initialize reports initialize's error unchanged; one stopped after fetch reports fetch's error unchanged, or `OfferNotAvailable` |
| `Pipeline.PipelineReportsActivation` | api/index.ts:181-189 | a run that reached the confirmations consists of initialize, fetch and the activation's calls, and reports the activation's result unchanged, codes or error |
| `Pipeline.PipelineOfferNotAvailable` | api/index.ts:177-179 | when the collaborators raise only HTTP or their own errors: `OfferNotAvailable` is reported exactly when initialize and fetch succeeded and no matching operation has a coupon |
| `Pipeline.PipelineSingleCodeFails` | api/index.ts:179-186 | with a single matching code, the run still confirms it (three calls) and then fails; no codes come out |
| `Pipeline.ExampleActivation` | api/index.ts:143-164 | confirming "R001abc" and "R002def" with [B, B] against a server that accepts at once gives "B001abc" and "B002def", one attempt each |
| `Pipeline.ExampleRemoteStages` | api/index.ts:177-186 | the remote stages of the end-to-end example yield "B001abc" and "B002def" after four calls |
| `Pipeline.PipelineExample` | api/index.ts:167-191 | the end-to-end example: id "ABCD-1234", token "tok", one matching operation with coupons "R001abc" and "R002def", choice B, gives "B001abc" and "B002def" |

## Left out

- HTTP transport: axios GET/POST, URLs and response decoding. Each remote call is a `Request` value, and the server's answer to each attempt is an input. A response's payload is taken as an already-decoded list of operations. A payload of another shape, which would make the scan throw a type error, is not modelled.
- The challenge resolver (`./captcha`) is not part of this model. Its outcome, a token or a failure, is an input.
- `md5` and `uuidv4` are foreign libraries. The digest is a function parameter and the UUID is a string parameter.
- `Activation.Synthesize`: a `char` is a whole Unicode character, while `substring(1)` drops one UTF-16 code unit. For a raw code starting with a character outside the Basic Multilingual Plane the program keeps a lone low surrogate and the model does not. Coupon codes are ASCII.
- `Identity.HashBindsId`: assumes a collision-free digest. MD5 is not one, so the lemma states what the signature is meant to bind, not a guarantee of MD5.
- `Identity.ToUpperCase`: maps only the ASCII letters `a`-`z`, the only lower-case letters a UUID holds. It does not model full Unicode case mapping.
- Real sleeping (`setTimeout`): delays are counted, not timed.
- `Promise.all` concurrency: the confirmations are modelled as a list of retried calls, all of which run to completion.
- `Activation.ActivationOutcome`: when both confirmations are rejected, the model reports the first in code order. In the program, whichever rejection settles first wins, which depends on timing.
- `Activation.ActivateBurgerCodes`: requires two choices and at most two codes, which is how its only caller uses it. For codes beyond the choices the program would send an undefined promotion id, which is not modelled.
- `RetryPolicy.Retry`: the bound `maxRetries` is an integer. A fractional JavaScript number is not modelled.
- Console logging in the orchestrator's error handler.
- The `null` default for `firstChoice`: a choice is always one of B and V.
- The header values, the secret and the promotion ids are kept as constants, but no property depends on their values.
- The presentation layer (screens, widgets, animation, haptics, persistence of past codes) is not part of this model.
