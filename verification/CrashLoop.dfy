/** The supervisor's crash-loop window: which exits are followed by a respawn, and after how long. */
module CrashLoop {
  import opened Wrappers

  const INITIAL_BACKOFF_MS := 250
  const MAX_BACKOFF_MS := 30000

  /** The limits in force, after the supervisor has raised zeros to one. */
  datatype Limits = Limits(threshold: nat, windowMs: nat)

  function Effective(configured: Limits): (limits: Limits)
    ensures limits.threshold >= 1 && limits.windowMs >= 1
  {
    Limits(if configured.threshold == 0 then 1 else configured.threshold, if configured.windowMs == 0 then 1 else configured.windowMs)
  }

  /** Elapsed time saturates at zero when the clock reads earlier. */
  function Since(now: nat, then_: nat): nat {
    if now >= then_ then now - then_ else 0
  }

  datatype State = State(restarts: nat, recentExits: seq<nat>)

  const FRESH := State(0, [])

  function Evicted(exits: seq<nat>, now: nat, window: nat): seq<nat> {
    if exits != [] && Since(now, exits[0]) > window then Evicted(exits[1..], now, window) else exits
  }

  function Pow2(n: nat): nat {
    if n == 0 then 1 else 2 * Pow2(n - 1)
  }

  /** The wait before a respawn that follows `restarts` earlier ones. */
  function Backoff(restarts: nat): nat {
    var delay := INITIAL_BACKOFF_MS * Pow2(if restarts < 7 then restarts else 7);
    if delay < MAX_BACKOFF_MS then delay else MAX_BACKOFF_MS
  }

  function AfterExit(s: State, now: nat, limits: Limits): State {
    var exits := Evicted(s.recentExits, now, limits.windowMs) + [now];
    State(if |exits| >= limits.threshold then s.restarts else s.restarts + 1, exits)
  }

  /** The delay granted at an exit; none when the extension is declared crash-looping. */
  function Grant(s: State, now: nat, limits: Limits): Option<nat> {
    if |AfterExit(s, now, limits).recentExits| >= limits.threshold then None else Some(Backoff(s.restarts))
  }

  class Supervisor {
    var restarts: nat
    var recentExits: seq<nat>

    ghost function View(): State
      reads this
    {
      State(restarts, recentExits)
    }

    constructor ()
      ensures View() == FRESH
    {
      restarts, recentExits := 0, [];
    }

    method NextRespawnDelay(now: nat, configured: Limits) returns (delay: Option<nat>)
      modifies this
      ensures View() == AfterExit(old(View()), now, Effective(configured))
      ensures delay == Grant(old(View()), now, Effective(configured))
    {
      var limits := Effective(configured);
      while recentExits != [] && Since(now, recentExits[0]) > limits.windowMs
        invariant restarts == old(restarts)
        invariant Evicted(recentExits, now, limits.windowMs) == Evicted(old(recentExits), now, limits.windowMs)
        decreases recentExits
      {
        recentExits := recentExits[1..];
      }
      recentExits := recentExits + [now];
      if |recentExits| >= limits.threshold {
        return None;
      }
      var shift := if restarts < 7 then restarts else 7;
      restarts := restarts + 1;
      var backoff := INITIAL_BACKOFF_MS * Pow2(shift);
      return Some(if backoff < MAX_BACKOFF_MS then backoff else MAX_BACKOFF_MS);
    }
  }

  // -------------------------------------------------------------------- histories

  /** Everything the supervisor remembers after exits at these times. */
  function After(times: seq<nat>, limits: Limits): State {
    if times == [] then FRESH else AfterExit(After(times[..|times| - 1], limits), times[|times| - 1], limits)
  }

  function GrantAt(times: seq<nat>, k: nat, limits: Limits): Option<nat>
    requires k < |times|
  {
    Grant(After(times[..k], limits), times[k], limits)
  }

  ghost predicate Monotone(times: seq<nat>) {
    forall i, j :: 0 <= i <= j < |times| ==> times[i] <= times[j]
  }

  /** The exits no older than the window, out of the whole history. */
  function Recent(times: seq<nat>, now: nat, window: nat): seq<nat> {
    if times == [] then []
    else
      var before, last := Recent(times[..|times| - 1], now, window), times[|times| - 1];
      if Since(now, last) <= window then before + [last] else before
  }

  /** On a monotone clock the deque is the whole history cut to the window, although each exit
      only ever looks at what the last one left. */
  lemma {:induction false} DequeIsTheWindow(times: seq<nat>, limits: Limits)
    requires times != [] && Monotone(times)
    ensures After(times, limits).recentExits == Recent(times, times[|times| - 1], limits.windowMs)
  {
    var before, now := times[..|times| - 1], times[|times| - 1];
    if before != [] {
      DequeIsTheWindow(before, limits);
      EvictedRecent(before, before[|before| - 1], now, limits.windowMs);
    }
  }

  lemma {:induction false} RecentOccurred(times: seq<nat>, now: nat, window: nat)
    ensures forall t :: t in Recent(times, now, window) ==> t in times
  {
    if times != [] {
      RecentOccurred(times[..|times| - 1], now, window);
    }
  }

  lemma {:induction false} EvictedAppend(exits: seq<nat>, last: nat, now: nat, window: nat)
    requires forall t :: t in exits ==> t <= last
    ensures Evicted(exits + [last], now, window)
      == if Since(now, last) <= window then Evicted(exits, now, window) + [last] else Evicted(exits, now, window)
  {
    var all := exits + [last];
    if exits == [] {
      assert all[1..] == [];
    } else if Since(now, exits[0]) > window {
      assert all[1..] == exits[1..] + [last];
      assert forall t :: t in exits[1..] ==> t in exits;
      EvictedAppend(exits[1..], last, now, window);
    } else {
      assert all[0] == exits[0] && exits[0] in exits;
    }
  }

  /** Narrowing the window at a later moment loses nothing and keeps nothing extra. */
  lemma {:induction false} EvictedRecent(times: seq<nat>, earlier: nat, now: nat, window: nat)
    requires Monotone(times) && earlier <= now && (times != [] ==> times[|times| - 1] <= earlier)
    ensures Evicted(Recent(times, earlier, window), now, window) == Recent(times, now, window)
  {
    if times != [] {
      var before, last := times[..|times| - 1], times[|times| - 1];
      EvictedRecent(before, earlier, now, window);
      RecentOccurred(before, earlier, window);
      if Since(earlier, last) <= window {
        EvictedAppend(Recent(before, earlier, window), last, now, window);
      }
    }
  }

  /** A respawn is granted exactly when fewer than `threshold` exits, this one included, lie
      within the window. */
  lemma GrantMeaning(times: seq<nat>, k: nat, limits: Limits)
    requires k < |times| && Monotone(times)
    ensures GrantAt(times, k, limits).Some? <==> |Recent(times[..k + 1], times[k], limits.windowMs)| < limits.threshold
  {
    DequeIsTheWindow(times[..k + 1], limits);
    assert times[..k + 1][..k] == times[..k];
  }

  /** In the configured figures: at the k-th exit a respawn is granted if and only if fewer than
      `threshold` exits, this one included, lie within the window, where a window of zero counts as
      one. A threshold of zero grants none, as one does. */
  lemma ConfiguredGrantMeaning(times: seq<nat>, k: nat, configured: Limits) returns (m: nat)
    requires k < |times| && Monotone(times)
    ensures m <= k && forall i :: 0 <= i <= k ==>
      (i >= m <==> times[k] - times[i] <= configured.windowMs || (configured.windowMs == 0 && times[k] - times[i] == 1))
    ensures GrantAt(times, k, Effective(configured)).Some? <==> k + 1 - m < configured.threshold
  {
    var limits := Effective(configured);
    GrantMeaning(times, k, limits);
    m := WindowStart(times[..k + 1], times[k], limits.windowMs);
    RecentIsSuffix(times[..k + 1], times[k], limits.windowMs, m);
  }

  /** On a monotone clock the recent exits are the last ones. */
  lemma {:induction false} WindowStart(times: seq<nat>, now: nat, window: nat) returns (m: nat)
    requires Monotone(times) && (times != [] ==> times[|times| - 1] <= now)
    ensures m <= |times| && forall i :: 0 <= i < |times| ==> (i >= m <==> now - times[i] <= window)
  {
    m := 0;
    while m < |times| && now - times[m] > window
      invariant m <= |times| && forall i :: 0 <= i < m ==> now - times[i] > window
    {
      m := m + 1;
    }
  }

  lemma {:induction false} RecentIsSuffix(times: seq<nat>, now: nat, window: nat, m: nat)
    requires m <= |times| && forall i :: 0 <= i < |times| ==> times[i] <= now && (i >= m <==> now - times[i] <= window)
    ensures Recent(times, now, window) == times[m..]
  {
    if times != [] {
      var n := |times| - 1;
      var before := times[..n];
      if m <= n {
        RecentIsSuffix(before, now, window, m);
        assert times[m..] == before[m..] + [times[n]];
      } else {
        RecentIsSuffix(before, now, window, n);
      }
    }
  }

  function Grants(times: seq<nat>, i: nat, j: nat, limits: Limits): (n: nat)
    requires i <= j <= |times|
    ensures n <= j - i
  {
    if i == j then 0
    else Grants(times, i, j - 1, limits) + if GrantAt(times, j - 1, limits).Some? then 1 else 0
  }

  lemma {:induction false} RecentAtLeast(times: seq<nat>, i: nat, now: nat, window: nat)
    requires i <= |times| && forall k :: i <= k < |times| ==> Since(now, times[k]) <= window
    ensures |Recent(times, now, window)| >= |times| - i
  {
    if i < |times| {
      RecentAtLeast(times[..|times| - 1], i, now, window);
    }
  }

  /** Any stretch of exits no longer than the window is granted at most threshold - 1 respawns. */
  lemma {:induction false} FewRespawnsPerWindow(times: seq<nat>, i: nat, j: nat, limits: Limits)
    requires i <= j <= |times| && Monotone(times) && limits.threshold >= 1
    requires i < j ==> times[j - 1] - times[i] <= limits.windowMs
    ensures Grants(times, i, j, limits) <= limits.threshold - 1
    decreases j
  {
    if i < j {
      if GrantAt(times, j - 1, limits).Some? {
        GrantMeaning(times, j - 1, limits);
        RecentAtLeast(times[..j], i, times[j - 1], limits.windowMs);
      } else {
        FewRespawnsPerWindow(times, i, j - 1, limits);
      }
    }
  }

  // ----------------------------------------------------------------------- delays

  lemma {:induction false} RestartsAreGrants(times: seq<nat>, k: nat, limits: Limits)
    requires k <= |times|
    ensures After(times[..k], limits).restarts == Grants(times, 0, k, limits)
  {
    if k > 0 {
      RestartsAreGrants(times, k - 1, limits);
      assert times[..k][..k - 1] == times[..k - 1];
    }
  }

  lemma {:induction false} BackoffGrows(m: nat, n: nat)
    requires m <= n
    ensures INITIAL_BACKOFF_MS <= Backoff(m) <= Backoff(n) <= MAX_BACKOFF_MS
  {
    PowersGrow(if m < 7 then m else 7, if n < 7 then n else 7);
  }

  lemma {:induction false} PowersGrow(m: nat, n: nat)
    requires m <= n
    ensures 1 <= Pow2(m) <= Pow2(n)
    decreases n
  {
    if m < n {
      PowersGrow(m, n - 1);
    } else if n > 0 {
      PowersGrow(n - 1, n - 1);
    }
  }

  lemma {:induction false} GrantsGrow(times: seq<nat>, k: nat, m: nat, limits: Limits)
    requires k <= m <= |times|
    ensures Grants(times, 0, k, limits) <= Grants(times, 0, m, limits)
    decreases m
  {
    if k < m {
      GrantsGrow(times, k, m - 1, limits);
    }
  }

  /** Granted delays never shrink and stay between 250 ms and 30 s, whatever the clock does; the
      delay doubles with each earlier grant until the cap. */
  lemma DelaysNeverShrink(times: seq<nat>, k: nat, m: nat, limits: Limits)
    requires k <= m < |times|
    requires GrantAt(times, k, limits).Some? && GrantAt(times, m, limits).Some?
    ensures GrantAt(times, k, limits).value == Backoff(Grants(times, 0, k, limits))
    ensures INITIAL_BACKOFF_MS <= GrantAt(times, k, limits).value <= GrantAt(times, m, limits).value <= MAX_BACKOFF_MS
  {
    RestartsAreGrants(times, k, limits);
    RestartsAreGrants(times, m, limits);
    GrantsGrow(times, k, m, limits);
    BackoffGrows(Grants(times, 0, k, limits), Grants(times, 0, m, limits));
  }

  /** 250 ms, doubling; the cap of 30 s is reached at the eighth grant. */
  lemma BackoffSchedule(n: nat)
    ensures Backoff(0) == 250
    ensures Backoff(n) == 30_000 <==> n >= 7
    ensures n < 6 ==> Backoff(n + 1) == 2 * Backoff(n)
  {
    if n < 7 {
      PowersGrow(n, 6);
      assert Pow2(6) == 64;
    } else {
      assert Pow2(7) == 128;
    }
    if n < 6 {
      PowersGrow(n + 1, 6);
      assert Pow2(6) == 64;
    }
  }
}
