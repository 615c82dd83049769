/** The rate limiter reduced to a counter per key. A key is present only while
    its decay window is live; an expired window is modelled as an absent key. */
module RateLimiter {

  type Counters = map<string, nat>

  /** `RateLimiter::attempts(key)`: zero for a key with no live window. */
  function Attempts(m: Counters, key: string): (n: nat) {
    if key in m then m[key] else 0
  }

  /** `RateLimiter::tooManyAttempts(key, max)`. A key without a live window is
      never limited: the limiter then resets the key and answers false, even
      when `max` is zero or negative. */
  predicate TooManyAttempts(m: Counters, key: string, max: int)
    ensures TooManyAttempts(m, key, max) ==> Attempts(m, key) >= max
    ensures max >= 1 ==> (TooManyAttempts(m, key, max) <==> Attempts(m, key) >= max)
    ensures key !in m ==> !TooManyAttempts(m, key, max)
  {
    key in m && m[key] >= max
  }

  /** `RateLimiter::hit(key)`: one more attempt at `key`, nothing else changes. */
  function Hit(m: Counters, key: string): (r: Counters)
    ensures key in r && Attempts(r, key) == Attempts(m, key) + 1
    ensures forall k :: k != key ==> (k in r <==> k in m)
    ensures forall k :: k != key ==> Attempts(r, k) == Attempts(m, k)
  {
    m[key := Attempts(m, key) + 1]
  }

  /** `RateLimiter::clear(key)`: the counter and its window are dropped, nothing else changes. */
  function Clear(m: Counters, key: string): (r: Counters)
    ensures key !in r && Attempts(r, key) == 0
    ensures forall k :: k != key ==> (k in r <==> k in m)
    ensures forall k :: k != key ==> Attempts(r, k) == Attempts(m, k)
  {
    m - {key}
  }

  /** Clearing forgives every earlier hit at that key. */
  lemma ClearForgivesHits(m: Counters, key: string)
    ensures Clear(Hit(m, key), key) == Clear(m, key)
  {
  }

  /** Clearing twice is the same as clearing once. */
  lemma ClearIdempotent(m: Counters, key: string)
    ensures Clear(Clear(m, key), key) == Clear(m, key)
  {
  }
}
