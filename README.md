# captcha2 core, modelled in Dafny

The service issues a visual challenge: three shapes (one circle, one square,
one triangle) drawn in three distinct cells of a 4 x 6 grid laid over a
background image. The server keeps the expected arrangement in Redis under a
session key for five minutes; the client later submits the cells it clicked,
in order, and the server answers valid or not and deletes the record.

This project models the three pieces of sequential logic in `main.go`:

- **Challenge construction** (`createCaptchaWithBackground` without drawing and
  PNG encoding): row-major grid enumeration, the in-place Fisher-Yates shuffle
  of cells and of kinds, the loop that pairs the first three cells with the
  shuffled kinds and numbers them 1..3, and the label joined with `" → "`
  (module `Placement`, data model in module `Captcha`).
- **Session keys** (`generateUniqueKey`, `getUniqueRedisKey`): Go's `%d`
  rendering and a parser for it (module `Decimal`), the key format and its
  inverse (module `SessionKeys`), and the probe loop over the store (module
  `KeyProbe`), which terminates because the store is finite.
- **Verification and single use** (the `/api/verify` and `/api/sequence`
  handlers): the ordered comparison loop as a function and a method, the
  handler as a function of request and store (module `Verification`), and the
  handlers run against a `Store` class holding the map from key to challenge
  (modules `Redis`, `Handlers`).

Randomness is a nondeterministic choice within the range the Go library
promises (`var j :| 0 <= j <= i` for each Fisher-Yates swap, a random number in
`0..9999` for the key), so every proved property holds for every outcome of the
shuffles. The clock is a parameter (`now`). Whether Redis can be reached is a
per-store constant: an unreachable store answers every command with an error.

Points of the handlers' behaviour that the model keeps as the code has them:

- The key is looked up before the number of submitted pairs is checked, so a
  missing key with a wrong count answers "Captcha expired"
  (`HandleVerify`'s ensures for a missing key).
- The record is deleted only after a verdict. Every earlier exit (no key, bad
  body, missing key, store error, wrong count, and a panic in the loop) leaves
  the store as it was (`HandleVerify`'s first ensures).
- The submission is compared with the stored shapes by index, not by their
  `position` field. Since generated challenges have `position == index + 1`,
  the two readings agree on every generated challenge.
- The grid is a constant 4 x 6 and nothing checks at start-up that it holds at
  least three cells; `Placement.EnumerateGrid` shows it holds 24.

## Model

| member | source | states |
|---|---|---|
| Captcha.KindName | main.go:196-204 | every kind has a non-empty display name with no space in it, so names and the arrow separator cannot run together |
| Captcha.PositionsAreOneTwoThree | main.go:187-194 | the positions of a generated challenge are exactly {1, 2, 3} |
| Captcha.KindsAreAllThree | main.go:172-194 | a generated challenge uses Circle, Square and Triangle once each |
| Captcha.ParseLabelRoundTrip | main.go:196-219 | the kind names joined by the arrow can be read back into the same kinds in the same order |
| Captcha.LabelNamesKinds | main.go:217-219 | the stored label of a challenge (`Label`, the kind names joined as `strings.Join` does) names its shapes' kinds in click order |
| Placement.CellAtInGrid | main.go:161-166 | every enumerated cell has 0 <= row < 4 and 0 <= col < 6 |
| Placement.CellAtInjective | main.go:161-166 | different indices of the enumeration are different cells |
| Placement.EnumerateGrid | main.go:160-166 | the nested loops produce 24 cells, cell k being (k / 6, k % 6): row-major order |
| Placement.GridCellsDistinctInGrid | main.go:161-166 | the 24 enumerated cells are pairwise distinct and on the grid |
| Placement.Shuffle | main.go:167-175 | the in-place shuffle leaves the array a permutation (same multiset) of what it held |
| Placement.PermutationPreservesDistinct | main.go:167-169 | a permutation of pairwise distinct cells is pairwise distinct, so the first three shuffled cells differ |
| Placement.PlaceShapes | main.go:177-209 | shape i gets the i-th shuffled kind, the i-th shuffled cell and position i + 1; names are the kinds' names in order |
| Placement.CreateChallenge | main.go:153-221 | every generated challenge is `WellFormed`: three distinct in-grid cells, three distinct kinds, positions 1..3 and the matching label |
| Decimal.FormatInt | main.go:51 | Go's `%d` rendering is non-empty, holds no colon, and is all digits for a non-negative integer |
| Decimal.FormatIntRoundTrip | main.go:51 | Go's `%d` rendering of any integer parses back to that integer |
| Decimal.FormatIntInjective | main.go:73 | distinct integers render as distinct strings |
| SessionKeys.FormatKey | main.go:51 | every base key starts with `captcha:` |
| SessionKeys.KeyRoundTrip | main.go:48-52 | a base key `captcha:<ts>:<r>` gives back its timestamp and random number |
| SessionKeys.FormatKeyInjective | main.go:48-52 | base keys made from different (timestamp, random) pairs differ |
| SessionKeys.GenerateUniqueKey | main.go:48-52 | the base key is `captcha:<now>:<r>` for some 0 <= r < 10000 |
| SessionKeys.Candidate | main.go:55-75 | the n-th probe candidate extends the base key, and for n > 0 continues it with a colon and a number |
| SessionKeys.CandidateInjective | main.go:72-74 | the probe's candidates `baseKey`, `baseKey:1`, `baseKey:2`, … are pairwise distinct |
| SessionKeys.ProbesBoundedByStore | main.go:60-75 | if the first n candidates are all taken, the store holds at least n keys, so the probe ends |
| KeyProbe.GetUniqueRedisKey | main.go:55-78 | on a reachable store: returns the first candidate absent from the store, all earlier ones being present; on a store error: returns the base key; always extends the base key |
| Redis.Store.constructor | main.go:225-228 | the model's start state: a client handle whose reachability is fixed for its lifetime, over an empty store (the real server may already hold keys; no handler theorem depends on this, each takes an arbitrary store) |
| Redis.Store.Exists | main.go:61 | EXISTS answers 1 or 0 by membership, or an error when unreachable |
| Redis.Store.Get | main.go:289 | GET answers the stored value, Nil for a missing key, or an error when unreachable |
| Redis.Store.Set | main.go:263 | SET maps the key to the value, on a reachable store |
| Redis.Store.Del | main.go:335 | DEL removes the key and nothing else; an absent key is no error |
| Redis.Store.Expire | main.go:263 | expiry of the five-minute TTL removes exactly that key and keeps every live record well formed |
| Verification.CompareFrom | main.go:319-325 | the loop panics only if some stored shape at or after the start index has no submitted pair or a pair without two numbers |
| Verification.CompareFromOutOfRangeIff | main.go:319-325 | the loop panics exactly when it reaches, after matching every earlier shape, a shape with no pair, an empty pair, or a one-number pair whose row agrees; a mismatch first ends it with `Incorrect` |
| Verification.CompareInOrder | main.go:319-325 | the loop with its `correct` flag and `break` ends as the ordered comparison specifies |
| Verification.CorrectIffMatchesInOrder | main.go:319-325 | the comparison succeeds exactly when the i-th submitted pair is the i-th stored cell for every stored shape |
| Verification.NoPanicOnPairs | main.go:320-321 | a submission with enough pairs of two numbers never indexes out of range |
| Verification.StoredOrderPasses | main.go:319-325 | submitting the stored cells in stored order passes |
| Verification.OtherOrderFails | main.go:319-325 | submitting a generated challenge's cells in any other order fails: matching is ordered, not by set |
| Verification.HandleVerify | main.go:270-336 | each exit in the code's order with its exact text (`Message`): no key, bad body, store error, missing key (before the count check), wrong count, each leaving the store as it was; three well-formed pairs against a live record of at most three shapes always get a verdict, valid iff the ordered match holds, answered "Sequence verified successfully" or "Incorrect sequence"; a live key with three pairs gets a verdict or a panic, the panic exactly when the loop reaches a missing or short pair before any mismatch; only a verdict deletes the key |
| Verification.LiveKeyJudgedByOrder | main.go:289-335 | in a store of generated challenges, any live key and three pairs of two numbers get a verdict, valid iff the ordered match holds, and the key is deleted |
| Verification.VerdictConsumesKey | main.go:327-335 | after a verdict, a second submission with the same key answers "Captcha expired" |
| Verification.IssuedChallengeAccepted | main.go:289-335 | a generated challenge answered in order is valid and its key is removed, every other key unchanged |
| Verification.ReorderedChallengeRejected | main.go:289-335 | a generated challenge answered in another order is invalid and its key is removed all the same |
| Verification.EmptyRecordAcceptsAnything | main.go:306-325 | a record with no shapes accepts any three pairs, because the loop ranges over the stored shapes |
| Verification.WorkedScenario | main.go:309-335 | cells (0,2),(3,5),(1,0) in order pass, reordered fail, and two pairs answer the count error without deleting |
| Verification.HandleSequence | main.go:338-373 | the label is returned exactly when a key is given, the store is reachable and the key is live; otherwise the texts (`SequenceMessage`) are "Captcha key is required", "Failed to get sequence" for a store error and "No captcha data found" for a missing key |
| Verification.SequenceNamesKindsInOrder | main.go:349-372 | the hint for a generated challenge names its kinds in click order |
| Handlers.IssueCaptcha | main.go:255-268 | issuing stores a well-formed challenge under a key that starts with `captcha:`, extends a base key for `now`, and was absent before; an unreachable store is left as it was |
| Handlers.VerifyCaptcha | main.go:270-336 | the handler's response and new store are those of `HandleVerify`; a store of generated challenges stays one |
| Handlers.GetSequence | main.go:338-373 | the handler answers as `HandleSequence` and changes nothing |
| Handlers.Lifecycle | main.go:255-336 | issue, then a correct answer is valid, then a second answer finds the challenge expired, and the store ends as it began |

## Left out

- Drawing (`drawShape`, the cell pixel arithmetic and the floating-point geometry) and the background loading, resizing and RGBA copy in `generateCaptcha`: image work through foreign libraries.
- PNG encoding and JSON encoding and decoding: the stored value is the `CaptchaData` datatype itself. As a result the `/api/sequence` branch "Failed to parse sequence data" cannot arise, and the ignored decoding error in `/api/verify` is represented only by `Verification.EmptyRecordAcceptsAnything`, which shows what an empty record does.
- The request body decoding is reduced to `None` (not a list of integer lists, including numbers outside Go's `int`) or the decoded lists.
- KeyProbe.GetUniqueRedisKey: a store is either reachable for the whole probe or not at all, so an error on a later probe after earlier successes is not modelled; the code returns the base key in that case too.
- Verification.VerdictConsumesKey: the store's reachability is fixed, so the case where GET succeeds and the DEL after the verdict fails (its error is ignored at main.go:335) is not modelled; there the key would stay live and could be answered again.
- Handlers.Lifecycle: for the same reason its second answer is always "Captcha expired"; a failed DEL would let the second answer be judged again.
- Handlers.IssueCaptcha: a SET that fails after successful EXISTS probes (its error is ignored at main.go:263) is not modelled; there the client would get a key that was never stored.
- Handlers.VerifyCaptcha: a store that becomes unreachable between GET and DEL is not modelled, so a verdict always deletes the key.
- Redis connection set-up and ping, and the wall clock behind the TTL: expiry is the explicit `Redis.Store.Expire` step.
- `rand.Shuffle`, `rand.Intn` and `time.Now`: nondeterministic choices in their promised ranges, and a parameter for the clock.
- Gin routing, the CORS headers, HTTP status codes, and the `userInput` and `expectedLength` fields echoed in the JSON bodies; a panic in the comparison loop is the `Crashed` response, whose body is not modelled.
- The race between `Exists` and `Set` across concurrent `/api/captcha` requests: the model is sequential.
- Go strings are bytes; the model's strings are sequences of characters, so the arrow in the label is one character rather than three bytes.
