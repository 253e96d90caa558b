/**
 * Session keys: the base key built from a timestamp and a random number, and
 * the candidates the uniqueness probe tries after it.
 */
module SessionKeys {
  import opened Wrappers
  import opened Decimal

  const KeyPrefix := "captcha:"
  /** The random component is drawn from `0 .. RandomBound - 1`. */
  const RandomBound := 10000

  /** `fmt.Sprintf("captcha:%d:%d", timestamp, random)`. */
  function FormatKey(timestamp: int, random: int): (key: string)
    ensures KeyPrefix <= key
  {
    KeyPrefix + FormatInt(timestamp) + ":" + FormatInt(random)
  }

  /** Index of the first `c` in `s`, or `|s|` when there is none. */
  function IndexOf(s: string, c: char): (k: nat)
    ensures k <= |s|
    ensures k < |s| ==> s[k] == c
    ensures forall i :: 0 <= i < k ==> s[i] != c
  {
    if s == [] then 0 else if s[0] == c then 0 else 1 + IndexOf(s[1..], c)
  }

  /** Splits a key of the form `captcha:<timestamp>:<random>` into its two numbers. */
  function ParseKey(key: string): Option<(int, int)> {
    if KeyPrefix <= key then
      var rest := key[|KeyPrefix|..];
      var p := IndexOf(rest, ':');
      if p < |rest| then
        match (ParseInt(rest[..p]), ParseInt(rest[p + 1..]))
        case (Some(t), Some(r)) => Some((t, r))
        case _ => None
      else None
    else None
  }

  lemma IndexOfFirst(a: string, b: string, c: char)
    requires c !in a
    ensures IndexOf(a + [c] + b, c) == |a|
  {
    var s := a + [c] + b;
    assert s[|a|] == c;
    assert forall i :: 0 <= i < |a| ==> s[i] == a[i];
  }

  /** A base key gives back the timestamp and random number it was made from. */
  lemma KeyRoundTrip(timestamp: int, random: int)
    ensures ParseKey(FormatKey(timestamp, random)) == Some((timestamp, random))
  {
    var ts, rs := FormatInt(timestamp), FormatInt(random);
    var rest := ts + [':'] + rs;
    assert FormatKey(timestamp, random) == KeyPrefix + rest;
    assert (KeyPrefix + rest)[|KeyPrefix|..] == rest;
    IndexOfFirst(ts, rs, ':');
    assert rest[..|ts|] == ts;
    assert rest[|ts| + 1..] == rs;
    FormatIntRoundTrip(timestamp);
    FormatIntRoundTrip(random);
  }

  /** Keys made at different instants, or with different random numbers, differ. */
  lemma FormatKeyInjective(t1: int, r1: int, t2: int, r2: int)
    requires FormatKey(t1, r1) == FormatKey(t2, r2)
    ensures t1 == t2 && r1 == r2
  {
    KeyRoundTrip(t1, r1);
    KeyRoundTrip(t2, r2);
  }

  /**
   * `generateUniqueKey`: the current time in nanoseconds is a parameter and
   * `rand.Intn(10000)` a nondeterministic choice in its range.
   */
  method GenerateUniqueKey(now: int) returns (key: string)
    ensures exists random :: 0 <= random < RandomBound && key == FormatKey(now, random)
  {
    var random :| 0 <= random < RandomBound;
    key := FormatKey(now, random);
  }

  /**
   * The key the uniqueness probe tries at attempt `n`: the base key itself,
   * then `baseKey:1`, `baseKey:2`, … The suffix is always appended to the
   * base key, never to the previous candidate.
   */
  function Candidate(baseKey: string, n: nat): (key: string)
    ensures baseKey <= key
    ensures n > 0 ==> |key| > |baseKey| + 1 && key[|baseKey|] == ':'
  {
    if n == 0 then baseKey else baseKey + ":" + FormatInt(n)
  }

  /** Different attempts try different keys. */
  lemma CandidateInjective(baseKey: string, m: nat, n: nat)
    requires Candidate(baseKey, m) == Candidate(baseKey, n)
    ensures m == n
  {
    if m != 0 && n != 0 {
      var a, b := Candidate(baseKey, m), Candidate(baseKey, n);
      assert a[|baseKey| + 1..] == FormatInt(m);
      assert b[|baseKey| + 1..] == FormatInt(n);
      FormatIntInjective(m, n);
    }
  }

  function Candidates(baseKey: string, n: nat): set<string> {
    set k | 0 <= k < n :: Candidate(baseKey, k)
  }

  lemma {:induction false} CandidatesCount(baseKey: string, n: nat)
    ensures |Candidates(baseKey, n)| == n
  {
    if n > 0 {
      CandidatesCount(baseKey, n - 1);
      assert Candidates(baseKey, n) == Candidates(baseKey, n - 1) + {Candidate(baseKey, n - 1)};
      if Candidate(baseKey, n - 1) in Candidates(baseKey, n - 1) {
        var k :| 0 <= k < n - 1 && Candidate(baseKey, k) == Candidate(baseKey, n - 1);
        CandidateInjective(baseKey, k, n - 1);
      }
    }
  }

  lemma SubsetCardinality<T>(a: set<T>, b: set<T>)
    requires a <= b
    ensures |a| <= |b|
  {
    assert b == a + (b - a);
  }

  /**
   * If the first `n` candidates are all taken, the store holds at least `n`
   * keys: this is why the probe stops.
   */
  lemma ProbesBoundedByStore(baseKey: string, n: nat, keys: set<string>)
    requires forall k :: 0 <= k < n ==> Candidate(baseKey, k) in keys
    ensures n <= |keys|
  {
    CandidatesCount(baseKey, n);
    SubsetCardinality(Candidates(baseKey, n), keys);
  }
}

/** The uniqueness probe `getUniqueRedisKey`, run against the store. */
module KeyProbe {
  import opened Captcha
  import opened Redis
  import opened SessionKeys
  import opened Decimal

  /** The first `n` candidates for `baseKey` are all taken in `data`. */
  ghost predicate TakenUpTo(baseKey: string, n: nat, data: map<string, CaptchaData>) {
    forall k :: 0 <= k < n ==> Candidate(baseKey, k) in data
  }

  /**
   * Tries `baseKey`, `baseKey:1`, `baseKey:2`, … until the store says a key
   * does not exist, and returns that key; if the store answers with an error,
   * returns `baseKey` instead. The store is only read.
   */
  method GetUniqueRedisKey(store: Store, baseKey: string) returns (key: string)
    ensures baseKey <= key
    ensures !store.reachable ==> key == baseKey
    ensures store.reachable ==> key !in store.data
    ensures store.reachable ==>
      exists n: nat :: key == Candidate(baseKey, n) && TakenUpTo(baseKey, n, store.data)
  {
    var counter := 1;
    var newKey := baseKey;
    while true
      invariant 1 <= counter && counter - 1 <= |store.data|
      invariant newKey == Candidate(baseKey, counter - 1) && baseKey <= newKey
      invariant TakenUpTo(baseKey, counter - 1, store.data)
      decreases |store.data| - (counter - 1)
    {
      var found := store.Exists(newKey);
      if found.ExistsError? {
        return baseKey;
      }
      if found.n == 0 {
        break;
      }
      ProbesBoundedByStore(baseKey, counter, store.data.Keys);
      newKey := baseKey + ":" + FormatInt(counter);
      counter := counter + 1;
    }
    key := newKey;
  }
}
