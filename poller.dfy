/** The confirmation poller the collection and NFT routes run after sending a
    mint transaction: it looks the new asset up again and again, doubling the
    wait before each attempt, until a lookup returns a snapshot that carries
    its metadata or the attempts run out. Sleeping is not modelled; the waits
    are recorded instead. */
module Poller {

  import opened Wrappers
  import opened Js
  import opened Json

  /** What one `fetchDigitalAsset` call did: it threw, or it resolved to a
      value (a snapshot, or `null`). */
  datatype Lookup = Threw | Resolved(nft: Json)

  const DefaultMaxAttempts: nat := 10
  const DefaultInitialDelay: int := 1000
  /** The property a snapshot must carry to count as confirmed. */
  const MetadataKey: string := "metadata"
  const TimedOut: string := "Failed to confirm NFT creation"
  const TimedOutAfter: string := "Failed to confirm NFT creation after "

  /** `nft && nft.metadata`: the only lookup outcome the poller accepts. */
  predicate Confirmed(l: Lookup) {
    l.Resolved? && Truthy(Some(l.nft)) && Truthy(Get(Some(l.nft), MetadataKey))
  }

  function Pow2(k: nat): (r: nat)
    ensures r >= 1
  {
    if k == 0 then 1 else 2 * Pow2(k - 1)
  }

  /** The error for running out of attempts: it names the attempt count only
      when the last lookup threw. */
  function TimeoutMessage(lookup: nat -> Lookup, maxAttempts: nat): string {
    if maxAttempts > 0 && lookup(maxAttempts - 1).Threw? then
      TimedOutAfter + NatToString(maxAttempts) + " attempts"
    else
      TimedOut
  }

  /** Of the first `n` lookups only the last is confirmed: the snapshot the
      poller returns after `n` attempts. */
  predicate FirstConfirmed(lookup: nat -> Lookup, n: nat) {
    && n >= 1 && Confirmed(lookup(n - 1))
    && forall k :: 0 <= k < n - 1 ==> !Confirmed(lookup(k))
  }

  /** `waitForConfirmation(umi, mintAddress, maxAttempts, initialDelay)`,
      where `lookup(i)` is what the `i`-th lookup (from 0) does and `waits`
      lists the delays slept, one before each lookup. */
  method WaitForConfirmation(lookup: nat -> Lookup, maxAttempts: nat, initialDelay: int)
    returns (r: Result<Json, string>, waits: seq<int>)
    // one lookup per wait, never more than maxAttempts
    ensures |waits| <= maxAttempts
    // the wait before attempt k is initialDelay doubled k times, whatever earlier attempts did
    ensures waits == Waits(initialDelay, |waits|)
    // no attempt before the last one made was accepted
    ensures forall k :: 0 <= k < |waits| - 1 ==> !Confirmed(lookup(k))
    // success exactly when some attempt within the bound returns a snapshot with metadata
    ensures r.Success? <==> exists k :: 0 <= k < maxAttempts && Confirmed(lookup(k))
    ensures r.Success? ==>
              && |waits| >= 1
              && Confirmed(lookup(|waits| - 1))
              && lookup(|waits| - 1) == Resolved(r.value)
    ensures r.Failure? ==> |waits| == maxAttempts && r.error == TimeoutMessage(lookup, maxAttempts)
  {
    var delay := initialDelay;
    waits := [];
    var i: nat := 0;
    while i < maxAttempts
      invariant i <= maxAttempts
      invariant |waits| == i
      invariant delay == Wait(initialDelay, i)
      invariant waits == Waits(initialDelay, i)
      invariant forall k :: 0 <= k < i ==> !Confirmed(lookup(k))
      invariant 0 < i == maxAttempts ==> !lookup(i - 1).Threw?
    {
      waits := waits + [delay];
      var outcome := lookup(i);
      if Confirmed(outcome) {
        // `nft && nft.metadata`
        r := Success(outcome.nft);
        return;
      }
      if outcome.Threw? && i == maxAttempts - 1 {
        // the catch block on the final attempt
        r := Failure(TimedOutAfter + NatToString(maxAttempts) + " attempts");
        return;
      }
      // thrown or incomplete: double the delay and try again
      delay := delay * 2;
      i := i + 1;
    }
    r := Failure(TimedOut);
  }

  /** The wait before attempt `k`: the initial delay, doubled after every
      attempt. */
  function Wait(initialDelay: int, k: nat): int {
    if k == 0 then initialDelay else 2 * Wait(initialDelay, k - 1)
  }

  /** The first `n` waits, in order. */
  function Waits(initialDelay: int, n: nat): (r: seq<int>)
    ensures |r| == n && forall k :: 0 <= k < n ==> r[k] == Wait(initialDelay, k)
  {
    if n == 0 then [] else Waits(initialDelay, n - 1) + [Wait(initialDelay, n - 1)]
  }

  /** The wait before attempt `k` is `initialDelay * 2^k`. */
  lemma {:induction false} WaitIsPow2(initialDelay: int, k: nat)
    ensures Wait(initialDelay, k) == initialDelay * Pow2(k)
  {
    if k > 0 {
      WaitIsPow2(initialDelay, k - 1);
    }
  }

  /** The sum of the first `n` waits. */
  function SumWaits(initialDelay: int, n: nat): int {
    if n == 0 then 0 else SumWaits(initialDelay, n - 1) + Wait(initialDelay, n - 1)
  }

  /** The first `n` waits add up to `initialDelay * (2^n - 1)`; with the
      routes' arguments (10 attempts from 2000 ms) that is 2000 * 1023 ms. */
  lemma {:induction false} TotalWait(initialDelay: int, n: nat)
    ensures SumWaits(initialDelay, n) == initialDelay * (Pow2(n) - 1)
  {
    SumIsNextWaitLessFirst(initialDelay, n);
    WaitIsPow2(initialDelay, n);
  }

  lemma {:induction false} SumIsNextWaitLessFirst(initialDelay: int, n: nat)
    ensures SumWaits(initialDelay, n) == Wait(initialDelay, n) - initialDelay
  {
    if n > 0 {
      SumIsNextWaitLessFirst(initialDelay, n - 1);
    }
  }
}
