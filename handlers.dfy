/**
 * The three request handlers, run against the store: `/api/captcha` issues a
 * challenge, `/api/sequence` reads its label and `/api/verify` judges a
 * submission and consumes the challenge. HTTP routing, headers, status codes,
 * the image bytes and JSON encoding are not modelled.
 */
module Handlers {
  import opened Wrappers
  import opened Captcha
  import opened Placement
  import opened SessionKeys
  import opened KeyProbe
  import opened Redis
  import opened Verification

  /**
   * `/api/captcha`: builds a challenge, derives a key from the clock `now`,
   * probes for a free key, and stores the challenge under it. The challenge is
   * returned here only because the image shows it; the client gets the key.
   */
  method IssueCaptcha(store: Store, now: int) returns (key: string, challenge: CaptchaData)
    modifies store
    ensures WellFormed(challenge)
    ensures KeyPrefix <= key
    ensures exists random, n: nat :: 0 <= random < RandomBound && key == Candidate(FormatKey(now, random), n)
    ensures store.reachable ==> key !in old(store.data) && store.data == old(store.data)[key := challenge]
    ensures !store.reachable ==> store.data == old(store.data)
    ensures old(store.Valid()) ==> store.Valid()
  {
    challenge := CreateChallenge();
    var baseKey := GenerateUniqueKey(now);
    key := GetUniqueRedisKey(store, baseKey);
    assert !store.reachable ==> key == Candidate(baseKey, 0);
    store.Set(key, challenge);
  }

  /** `/api/verify`, with `body` = `None` when the request body does not decode. */
  method VerifyCaptcha(store: Store, key: string, body: Option<seq<seq<int>>>) returns (response: VerifyResponse)
    modifies store
    ensures HandleVerify(key, body, old(store.data), store.reachable) == VerifyOutcome(response, store.data)
    ensures old(store.Valid()) ==> store.Valid()
  {
    if key == "" {
      return KeyRequired;
    }
    if body.None? {
      return InvalidInput;
    }
    var userSequence := body.value;
    var stored := store.Get(key);
    if stored.Nil? {
      return Expired;
    } else if stored.GetError? {
      return ServerError;
    }
    if |userSequence| != ShapeCount {
      return WrongCount;
    }
    var comparison := CompareInOrder(stored.value.shapes, userSequence);
    if comparison.OutOfRange? {
      return Crashed;
    }
    response := Verdict(comparison.Correct?);
    store.Del(key);
  }

  /** `/api/sequence`: reads the label of a live challenge; the store is not changed. */
  method GetSequence(store: Store, key: string) returns (response: SequenceResponse)
    ensures response == HandleSequence(key, store.data, store.reachable)
  {
    if key == "" {
      return SequenceKeyRequired;
    }
    var stored := store.Get(key);
    if stored.Nil? {
      return NoData;
    } else if stored.GetError? {
      return LookupFailed;
    }
    response := Sequence(stored.value.sequence);
  }

  /**
   * One challenge's life against a reachable store: issue it, read its hint,
   * answer it correctly, and find it gone on a second answer.
   */
  method Lifecycle(store: Store, now: int) returns (first: VerifyResponse, second: VerifyResponse)
    requires store.reachable
    modifies store
    ensures first == Verdict(true) && second == Expired
    ensures store.data == old(store.data)
  {
    var key, challenge := IssueCaptcha(store, now);
    assert key != "" by {
      assert |KeyPrefix| <= |key|;
    }
    var hint := GetSequence(store, key);
    SequenceNamesKindsInOrder(key, store.data);
    assert ParseLabel(hint.text) == Some(Kinds(challenge.shapes));
    var answer := CellsOf(challenge.shapes);
    IssuedChallengeAccepted(key, store.data);
    first := VerifyCaptcha(store, key, Some(answer));
    second := VerifyCaptcha(store, key, Some(answer));
    assert store.data == old(store.data)[key := challenge] - {key};
  }
}
