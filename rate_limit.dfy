/**
 * The fixed-window request limiter that gates the chat handler: per client key,
 * a count and the time its window ends (src/lib/rate-limit.ts).
 */
module RateLimit {
  import opened Wrappers

  const WINDOW_MS := 60_000
  const MAX_REQUESTS := 20

  datatype WindowEntry = WindowEntry(count: nat, resetAt: int)

  function Find(windows: map<string, WindowEntry>, key: string): Option<WindowEntry> {
    if key in windows then Some(windows[key]) else None
  }

  /**
   * The key's window after one call at time `now`: a fresh window holding this
   * call when there was none or the old one has passed (`now > resetAt`),
   * otherwise the same window with one more call.
   */
  function NextEntry(entry: Option<WindowEntry>, now: int): WindowEntry {
    if entry.None? || now > entry.value.resetAt then WindowEntry(1, now + WINDOW_MS)
    else entry.value.(count := entry.value.count + 1)
  }

  /** A call is refused when its window, counting this call, holds more than the maximum. */
  predicate Limited(e: WindowEntry) {
    e.count > MAX_REQUESTS
  }

  class RateLimiter {
    var windows: map<string, WindowEntry>

    constructor ()
      ensures windows == map[]
    {
      windows := map[];
    }

    /**
     * Records one call for `key` at time `now` and says whether it is refused.
     * Only the entry for `key` changes; a refused call is still counted.
     */
    method IsRateLimited(key: string, now: int) returns (limited: bool)
      modifies this
      ensures windows == old(windows)[key := NextEntry(Find(old(windows), key), now)]
      ensures limited == Limited(windows[key])
      ensures old(key !in windows || now > windows[key].resetAt) ==> !limited
    {
      if key !in windows || now > windows[key].resetAt {
        windows := windows[key := WindowEntry(1, now + WINDOW_MS)];
        return false;
      }
      var entry := windows[key];
      entry := entry.(count := entry.count + 1);
      windows := windows[key := entry];
      limited := entry.count > MAX_REQUESTS;
    }
  }

  /** The key's window after a sequence of calls at the given times, starting from `entry`. */
  function Replay(entry: Option<WindowEntry>, times: seq<int>): Option<WindowEntry> {
    if |times| == 0 then entry
    else Some(NextEntry(Replay(entry, times[..|times| - 1]), times[|times| - 1]))
  }

  /**
   * Calls that open a window at `times[0]` and all arrive no later than the
   * window's end (the end itself still counts as inside) share that window,
   * and its count is the number of calls.
   */
  lemma {:induction false} CallsShareWindow(entry: Option<WindowEntry>, times: seq<int>)
    requires |times| >= 1
    requires entry.None? || times[0] > entry.value.resetAt
    requires forall i :: 0 <= i < |times| ==> times[i] <= times[0] + WINDOW_MS
    ensures Replay(entry, times) == Some(WindowEntry(|times|, times[0] + WINDOW_MS))
  {
    if |times| > 1 {
      var prefix := times[..|times| - 1];
      CallsShareWindow(entry, prefix);
    } else {
      assert times[..0] == [];
    }
  }

  /**
   * Within one window, calls 1 to 20 pass and every call from the 21st on is
   * refused.
   */
  lemma TwentyPerWindow(entry: Option<WindowEntry>, times: seq<int>, k: nat)
    requires 1 <= k <= |times|
    requires entry.None? || times[0] > entry.value.resetAt
    requires forall i :: 0 <= i < |times| ==> times[i] <= times[0] + WINDOW_MS
    ensures Replay(entry, times[..k]).Some?
    ensures Limited(Replay(entry, times[..k]).value) <==> k > 20
  {
    CallsShareWindow(entry, times[..k]);
  }

  /** Once a window has passed, the next call starts afresh and passes, however many calls the old window saw. */
  lemma ExpiredWindowResets(e: WindowEntry, now: int)
    requires now > e.resetAt
    ensures NextEntry(Some(e), now) == WindowEntry(1, now + WINDOW_MS)
    ensures !Limited(NextEntry(Some(e), now))
  {
  }
}
