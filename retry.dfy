/**
 The rate-limit retry policy of `fetchWithRetry` (the listing fetch). Each
 attempt's remote answer is supplied by the caller as a function of the attempt
 number, so the policy becomes a deterministic loop over a script of answers.
 */
module Retry {
  import opened Json

  /** What one HTTP request ends in: a response body, an error whose response
      status is 429, or any other error (another status, no response at all). */
  datatype Outcome = Ok(data: JsonValue) | RateLimited | OtherError

  /** `answer(i)` is the outcome of attempt `i` (counting from 0). */
  type Answers = nat -> Outcome

  /** How `fetchWithRetry` ends: the response body, a rethrown non-429 error, or
      the error 'Max retries reached'. */
  datatype Fetched = Data(value: JsonValue) | Rethrown | MaxRetriesReached

  /** The default ceiling and first wait (ms) of both retry loops. */
  const DefaultRetries: int := 5
  const InitialDelay: int := 2000
  /** The growth of the wait after each 429: listing fetch and detail fetch. */
  const ListingBackoff: int := 4
  const DetailBackoff: int := 2

  function Pow(b: int, k: nat): int {
    if k == 0 then 1 else b * Pow(b, k - 1)
  }

  /** The number of iterations of `for (let i = 0; i < retries; i++)` when none
      exits early. */
  function Ceiling(retries: int): nat {
    if retries < 0 then 0 else retries
  }

  /** The length of the run of 429 answers that opens the first `n` attempts. */
  function LeadingRateLimits(answer: Answers, n: nat): (k: nat)
    ensures k <= n
  {
    if n == 0 then 0
    else
      var k := LeadingRateLimits(answer, n - 1);
      if k < n - 1 then k
      else if answer(n - 1) == RateLimited then n
      else n - 1
  }
  /** The answers before that count are all 429, and the next one, if any is
      below `n`, is not. */
  lemma {:induction false} LeadingRateLimitsMeaning(answer: Answers, n: nat)
    ensures forall j :: 0 <= j < LeadingRateLimits(answer, n) ==> answer(j) == RateLimited
    ensures LeadingRateLimits(answer, n) < n ==> answer(LeadingRateLimits(answer, n)) != RateLimited
  {
    if n > 0 {
      LeadingRateLimitsMeaning(answer, n - 1);
    }
  }

  /** No other count has that property. */
  lemma LeadingRateLimitsAt(answer: Answers, n: nat, i: nat)
    requires i <= n
    requires forall j :: 0 <= j < i ==> answer(j) == RateLimited
    requires i < n ==> answer(i) != RateLimited
    ensures LeadingRateLimits(answer, n) == i
  {
    LeadingRateLimitsMeaning(answer, n);
  }


  /** The waits of a retry loop that sleeps `delay` ms and then multiplies `delay`
      by `factor`, `n` times. */
  function Waits(delay: int, factor: int, n: nat): (s: seq<int>)
    ensures |s| == n
    decreases n
  {
    if n == 0 then [] else [delay] + Waits(delay * factor, factor, n - 1)
  }

  /** The k-th wait (counting from 0) is `delay * factor^k`. */
  lemma {:induction false} WaitsClosedForm(delay: int, factor: int, n: nat, k: nat)
    requires k < n
    ensures Waits(delay, factor, n)[k] == delay * Pow(factor, k)
    decreases n
  {
    if k > 0 {
      WaitsClosedForm(delay * factor, factor, n - 1, k - 1);
      assert delay * factor * Pow(factor, k - 1) == delay * (factor * Pow(factor, k - 1));
    }
  }

  /** One more wait of the schedule. */
  lemma {:induction false} WaitsSnoc(delay: int, factor: int, n: nat)
    ensures Waits(delay, factor, n + 1) == Waits(delay, factor, n) + [delay * Pow(factor, n)]
    decreases n
  {
    if n > 0 {
      WaitsSnoc(delay * factor, factor, n - 1);
      assert delay * factor * Pow(factor, n - 1) == delay * (factor * Pow(factor, n - 1));
    }
  }

  /** With a positive first wait and a factor above 1 the waits strictly increase. */
  lemma {:induction false} WaitsIncrease(delay: int, factor: int, n: nat, j: nat, k: nat)
    requires delay > 0 && factor > 1 && j < k < n
    ensures Waits(delay, factor, n)[j] < Waits(delay, factor, n)[k]
    ensures Waits(delay, factor, n)[k] == factor * Waits(delay, factor, n)[k - 1]
  {
    WaitsClosedForm(delay, factor, n, j);
    WaitsClosedForm(delay, factor, n, k);
    WaitsClosedForm(delay, factor, n, k - 1);
    PowIncreases(factor, j, k);
    var a, b := Pow(factor, j), Pow(factor, k);
    assert delay * b - delay * a == delay * (b - a);
    assert b == factor * Pow(factor, k - 1);
    assert delay * b == factor * (delay * Pow(factor, k - 1));
  }

  lemma {:induction false} PowIncreases(b: int, j: nat, k: nat)
    requires b > 1 && j < k
    ensures 0 < Pow(b, j) < Pow(b, k)
  {
    if j < k - 1 {
      PowIncreases(b, j, k - 1);
    } else {
      PowPositive(b, j);
    }
    var p := Pow(b, k - 1);
    assert Pow(b, k) == b * p;
    assert b * p - p == (b - 1) * p;
  }

  lemma {:induction false} PowPositive(b: int, k: nat)
    requires b > 0
    ensures Pow(b, k) > 0
  {
    if k > 0 {
      PowPositive(b, k - 1);
      var p := Pow(b, k - 1);
      assert Pow(b, k) == b * p;
    }
  }

  /** How a retry loop over `answer` ends when it gives up after `retries` answers
      of 429. */
  function FetchResult(answer: Answers, retries: int): Fetched {
    var n := LeadingRateLimits(answer, Ceiling(retries));
    if n == Ceiling(retries) then MaxRetriesReached
    else match answer(n)
      case Ok(data) => Data(data)
      case _ => Rethrown
  }

  /** The retry loop gives up exactly when all `retries` answers are 429, and
      otherwise ends with the first answer that is not, returned or rethrown. */
  lemma FetchResultMeaning(answer: Answers, retries: int)
    ensures FetchResult(answer, retries).MaxRetriesReached? <==> forall j :: 0 <= j < Ceiling(retries) ==> answer(j) == RateLimited
    ensures var r := FetchResult(answer, retries);
      r.Data? ==>
        exists j :: 0 <= j < Ceiling(retries) && answer(j) == Ok(r.value) && (forall i :: 0 <= i < j ==> answer(i) == RateLimited)
    ensures var r := FetchResult(answer, retries);
      r.Rethrown? ==>
        exists j :: 0 <= j < Ceiling(retries) && answer(j) == OtherError && (forall i :: 0 <= i < j ==> answer(i) == RateLimited)
  {
    var c := Ceiling(retries);
    var n := LeadingRateLimits(answer, c);
    LeadingRateLimitsMeaning(answer, c);
    if forall j :: 0 <= j < c ==> answer(j) == RateLimited {
      LeadingRateLimitsAt(answer, c, c);
    }
  }

  /**
   `fetchWithRetry(url, params, retries, delay)`: attempts are made in order; the
   first answer that is not a 429 ends the loop (a body is returned unchanged, any
   other error is rethrown at once); each 429 is followed by a wait that is 4 times
   the previous one; after `retries` answers that are all 429 it throws.
   */
  method FetchWithRetry(answer: Answers, retries: int, delay: int) returns (r: Fetched, sleeps: seq<int>)
    ensures sleeps == Waits(delay, ListingBackoff, LeadingRateLimits(answer, Ceiling(retries)))
    ensures r.MaxRetriesReached? <==> |sleeps| == Ceiling(retries)
    ensures r.Data? ==> answer(|sleeps|) == Ok(r.value)
    ensures r.Rethrown? ==> answer(|sleeps|) == OtherError
    ensures r == FetchResult(answer, retries)
  {
    sleeps := [];
    var wait := delay;
    var i := 0;
    while i < retries
      invariant 0 <= i <= Ceiling(retries)
      invariant forall j :: 0 <= j < i ==> answer(j) == RateLimited
      invariant sleeps == Waits(delay, ListingBackoff, i)
      invariant wait == delay * Pow(ListingBackoff, i)
    {
      match answer(i) {
        case Ok(data) =>
          LeadingRateLimitsAt(answer, Ceiling(retries), i);
          return Data(data), sleeps;
        case OtherError =>
          LeadingRateLimitsAt(answer, Ceiling(retries), i);
          return Rethrown, sleeps;
        case RateLimited =>
      }
      WaitsSnoc(delay, ListingBackoff, i);
      sleeps := sleeps + [wait];
      assert wait * ListingBackoff == delay * (ListingBackoff * Pow(ListingBackoff, i));
      wait := wait * ListingBackoff;
      i := i + 1;
    }
    LeadingRateLimitsAt(answer, Ceiling(retries), i);
    r := MaxRetriesReached;
  }

  /** `n` answers of 429 below the ceiling, then a body: the body is returned after
      the waits 2000, 8000, 32000, ... ms. */
  method ListingRateLimitedThenOk(n: nat, data: JsonValue) returns (r: Fetched, sleeps: seq<int>)
    requires n < DefaultRetries
    ensures r == Data(data)
    ensures |sleeps| == n
    ensures forall k :: 0 <= k < n ==> sleeps[k] == InitialDelay * Pow(ListingBackoff, k)
  {
    var script: Answers := k => if k < n then RateLimited else Ok(data);
    r, sleeps := FetchWithRetry(script, DefaultRetries, InitialDelay);
    forall k | 0 <= k < n {
      WaitsClosedForm(InitialDelay, ListingBackoff, n, k);
    }
  }

  /** Five 429 answers in a row: five waits, then 'Max retries reached'. */
  method ListingAlwaysRateLimited() returns (r: Fetched, sleeps: seq<int>)
    ensures r == MaxRetriesReached
    ensures sleeps == [2000, 8000, 32000, 128000, 512000]
  {
    var script: Answers := k => RateLimited;
    r, sleeps := FetchWithRetry(script, DefaultRetries, InitialDelay);
  }
}
