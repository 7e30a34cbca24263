/**
 * The rate limit shared by the cartridge and heated-bed removal handlers:
 * a handler acts only when `millis() > last + interval`, and stores
 * `millis()` as its new `last` on every call, acted-on or not.
 *
 * Time is a `nat` of milliseconds; the 32-bit wrap of `millis()` and of
 * `last + interval` is outside the model.
 */
module RateLimit {

  /** Whether a handler called at `now`, last called at `last`, acts. */
  predicate Acts(now: nat, last: nat, interval: nat) {
    now > last + interval
  }

  /**
   * Number of calls that act when the handler is called at each of
   * `times` in turn, starting from the stored time `last`.
   */
  function ActCount(times: seq<nat>, last: nat, interval: nat): (n: nat)
    ensures n <= |times|
    ensures n == 0 <==> forall k :: 0 <= k < |times| ==> !Acts(times[k], StoredBefore(times, last, k), interval)
  {
    if times == [] then 0
    else
      assert forall k :: 0 < k < |times| ==> StoredBefore(times, last, k) == StoredBefore(times[1..], times[0], k - 1);
      (if Acts(times[0], last, interval) then 1 else 0) + ActCount(times[1..], times[0], interval)
  }

  /** The time stored before the `k`-th call of a run: the previous call's time. */
  function StoredBefore(times: seq<nat>, last: nat, k: nat): nat
    requires k < |times|
  {
    if k == 0 then last else times[k - 1]
  }

  /**
   * A fault held down and polled at least once per `interval` makes the
   * handler act at most once: only possibly on the first call.
   */
  lemma {:induction false} HeldFaultActsAtMostOnce(times: seq<nat>, last: nat, interval: nat)
    requires forall k :: 0 < k < |times| ==> times[k] <= times[k - 1] + interval
    ensures ActCount(times, last, interval) <= 1
    ensures |times| > 0 ==> ActCount(times, last, interval) == (if Acts(times[0], last, interval) then 1 else 0)
  {
    if |times| > 0 {
      QuietWhilePolled(times[1..], times[0], interval);
    }
  }

  /** Calls that each come within `interval` of the previous one never act. */
  lemma {:induction false} QuietWhilePolled(times: seq<nat>, last: nat, interval: nat)
    requires |times| > 0 ==> times[0] <= last + interval
    requires forall k :: 0 < k < |times| ==> times[k] <= times[k - 1] + interval
    ensures ActCount(times, last, interval) == 0
  {
    if |times| > 0 {
      QuietWhilePolled(times[1..], times[0], interval);
    }
  }

  /**
   * With non-decreasing call times, two calls that act are more than
   * `interval` apart.
   */
  lemma ActionsSpaced(times: seq<nat>, last: nat, interval: nat, j: nat, k: nat)
    requires forall a, b :: 0 <= a < b < |times| ==> times[a] <= times[b]
    requires j < k < |times|
    requires Acts(times[j], StoredBefore(times, last, j), interval)
    requires Acts(times[k], StoredBefore(times, last, k), interval)
    ensures times[k] > times[j] + interval
  {
    assert StoredBefore(times, last, k) == times[k - 1];
    assert times[j] <= times[k - 1];
  }
}
