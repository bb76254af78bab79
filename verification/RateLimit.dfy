/** The sliding-window limiter of backend/app/core/ratelimit.py, proved against the whole
    history of admissions, which it does not keep. */
module RateLimits {
  import opened Prelude

  // ---- The specification: one key's admissions, oldest first -----------------------------

  ghost predicate Ascending(h: seq<real>) { forall i, j :: 0 <= i < j < |h| ==> h[i] <= h[j] }

  ghost predicate UpTo(h: seq<real>, now: real) { forall i :: 0 <= i < |h| ==> h[i] <= now }

  /** How many admissions lie in the window (lo, hi]. */
  function Within(h: seq<real>, lo: real, hi: real): nat {
    if h == [] then 0
    else Within(h[..|h| - 1], lo, hi) + if lo < h[|h| - 1] <= hi then 1 else 0
  }

  /** The rule: a check at `now` is admitted when fewer than `limit` admissions lie in the
      window of length `window` that ends at `now`. */
  predicate Admits(h: seq<real>, limit: int, window: real, now: real) { Within(h, now - window, now) < limit }

  /** The admissions of one key after a check at `now`. */
  function AfterCheck(h: seq<real>, limit: int, window: real, now: real): seq<real> {
    if Admits(h, limit, window, now) then h + [now] else h
  }

  /** When a refused caller may come back: the limit-th newest admission leaves the window. */
  function RetryAfter(h: seq<real>, limit: int, window: real, now: real): real
    requires 1 <= limit <= |h|
  {
    window - (now - h[|h| - limit])
  }

  /** What checks at non-decreasing times leave: ascending, and any `limit` + 1 consecutive
      admissions span at least a window. */
  ghost predicate Reachable(h: seq<real>, limit: int, window: real) {
    && limit >= 1
    && Ascending(h)
    && forall i :: limit <= i < |h| ==> h[i] >= h[i - limit] + window
  }

  lemma {:induction false} WithinOfSplit(gone: seq<real>, recent: seq<real>, lo: real, hi: real)
    requires UpTo(gone, lo) && forall i :: 0 <= i < |recent| ==> lo < recent[i] <= hi
    ensures Within(gone + recent, lo, hi) == |recent|
  {
    var all := gone + recent;
    if recent != [] {
      var init := recent[..|recent| - 1];
      WithinOfSplit(gone, init, lo, hi);
      assert all[..|all| - 1] == gone + init;
      assert all[|all| - 1] == recent[|recent| - 1];
    } else if gone != [] {
      WithinOfSplit(gone[..|gone| - 1], [], lo, hi);
      assert all == gone && gone[..|gone| - 1] + [] == gone[..|gone| - 1];
      assert all[|all| - 1] <= lo;
    }
  }

  lemma {:induction false} WithinAtMostSuffix(h: seq<real>, lo: real, hi: real, k: nat)
    requires k <= |h| && forall i :: 0 <= i < k ==> h[i] <= lo
    ensures Within(h, lo, hi) <= |h| - k
  {
    if |h| > k {
      WithinAtMostSuffix(h[..|h| - 1], lo, hi, k);
    } else if h != [] {
      WithinAtMostSuffix(h[..|h| - 1], lo, hi, k - 1);
    }
  }

  lemma {:induction false} WithinAtLeastSuffix(h: seq<real>, lo: real, hi: real, k: nat)
    requires k <= |h| && forall i :: k <= i < |h| ==> lo < h[i] <= hi
    ensures Within(h, lo, hi) >= |h| - k
  {
    if |h| > k { WithinAtLeastSuffix(h[..|h| - 1], lo, hi, k); }
  }

  /** The rule looks at one admission only, the limit-th newest. */
  lemma AdmitsExactly(h: seq<real>, limit: int, window: real, now: real)
    requires limit >= 1 && Ascending(h) && UpTo(h, now)
    ensures Admits(h, limit, window, now) <==> |h| < limit || h[|h| - limit] <= now - window
  {
    var lo := now - window;
    if |h| < limit {
      WithinAtMostSuffix(h, lo, now, 0);
    } else {
      var k := |h| - limit;
      if h[k] <= lo {
        WithinAtMostSuffix(h, lo, now, k + 1);
      } else {
        forall i | k <= i < |h| ensures lo < h[i] <= now { assert h[k] <= h[i]; }
        WithinAtLeastSuffix(h, lo, now, k);
      }
    }
  }

  lemma CheckKeepsReachable(h: seq<real>, limit: int, window: real, now: real)
    requires limit >= 1 && Reachable(h, limit, window) && UpTo(h, now)
    ensures Reachable(AfterCheck(h, limit, window, now), limit, window)
    ensures UpTo(AfterCheck(h, limit, window, now), now)
  {
    AdmitsExactly(h, limit, window, now);
    var h' := AfterCheck(h, limit, window, now);
    forall i, j | 0 <= i < j < |h'|
      ensures h'[i] <= h'[j]
    {
      if j == |h| { assert h[i] <= now; }
    }
  }

  /** No window of that length, wherever it ends, ever holds more than `limit` admissions. */
  lemma {:induction false} NoWindowOverflows(h: seq<real>, limit: int, window: real, end: real)
    requires limit >= 1 && Reachable(h, limit, window)
    ensures Within(h, end - window, end) <= limit
  {
    if h != [] {
      var init := h[..|h| - 1];
      if h[|h| - 1] > end || |h| <= limit {
        assert Reachable(init, limit, window) by {
          forall i | limit <= i < |init| ensures init[i] >= init[i - limit] + window {
            assert h[i] >= h[i - limit] + window;
          }
        }
        NoWindowOverflows(init, limit, window, end);
        WithinAtMostSuffix(h, end - window, end, 0);
      } else {
        var k := |h| - 1 - limit;
        assert h[|h| - 1] >= h[|h| - 1 - limit] + window;
        forall i | 0 <= i < k + 1 ensures h[i] <= end - window { assert i < k ==> h[i] <= h[k]; }
        WithinAtMostSuffix(h, end - window, end, k + 1);
      }
    }
  }

  /** The retry a refusal names is exact: positive; every check before that instant is refused,
      the check at that instant is admitted. */
  lemma RetryIsExact(h: seq<real>, limit: int, window: real, now: real, later: real)
    requires limit >= 1 && Ascending(h) && UpTo(h, now)
    requires !Admits(h, limit, window, now) && later >= now
    ensures |h| >= limit && RetryAfter(h, limit, window, now) > 0.0
    ensures later < now + RetryAfter(h, limit, window, now) ==> !Admits(h, limit, window, later)
    ensures later >= now + RetryAfter(h, limit, window, now) ==> Admits(h, limit, window, later)
  {
    AdmitsExactly(h, limit, window, now);
    AdmitsExactly(h, limit, window, later);
  }

  function AfterChecks(h: seq<real>, limit: int, window: real, times: seq<real>): seq<real> {
    if times == [] then h else AfterCheck(AfterChecks(h, limit, window, times[..|times| - 1]), limit, window, times[|times| - 1])
  }

  /** Checking again and again while refused changes nothing: all are refused, and the instant
      of the first refusal's retry stays the instant of admission. */
  lemma {:induction false} WaitingIsNotLengthened(h: seq<real>, limit: int, window: real, now: real, times: seq<real>)
    requires limit >= 1 && Ascending(h) && UpTo(h, now)
    requires !Admits(h, limit, window, now)
    requires |h| >= limit ==> forall i :: 0 <= i < |times| ==> now <= times[i] < now + RetryAfter(h, limit, window, now)
    ensures AfterChecks(h, limit, window, times) == h
    ensures |h| >= limit && Admits(AfterChecks(h, limit, window, times), limit, window, now + RetryAfter(h, limit, window, now))
  {
    RetryIsExact(h, limit, window, now, now);
    RetryIsExact(h, limit, window, now, now + RetryAfter(h, limit, window, now));
    if times != [] {
      WaitingIsNotLengthened(h, limit, window, now, times[..|times| - 1]);
      RetryIsExact(h, limit, window, now, times[|times| - 1]);
    }
  }

  /** The deque `dq` is the end of the history `h`; what was dropped had left the window. */
  ghost predicate Follows(h: seq<real>, dq: seq<real>, limit: int, window: real, clock: real) {
    && Reachable(h, limit, window)
    && UpTo(h, clock)
    && |dq| <= |h| && h[|h| - |dq|..] == dq
    && UpTo(h[..|h| - |dq|], clock - window)
  }

  lemma FollowsLater(h: seq<real>, dq: seq<real>, limit: int, window: real, clock: real, now: real)
    requires Follows(h, dq, limit, window, clock) && clock <= now
    ensures Follows(h, dq, limit, window, now)
  {
  }

  /** Dropping the oldest entry once it has left the window. */
  lemma DropFollows(h: seq<real>, dq: seq<real>, limit: int, window: real, now: real)
    requires Follows(h, dq, limit, window, now) && dq != [] && dq[0] <= now - window
    ensures Follows(h, dq[1..], limit, window, now)
  {
    var n := |h| - |dq|;
    assert h[n] == dq[0] && h[n + 1..] == dq[1..];
    assert h[..n + 1] == h[..n] + [h[n]];
  }

  /** With nothing left to drop, the deque holds exactly the admissions in the window. */
  lemma DequeCountsWindow(h: seq<real>, dq: seq<real>, limit: int, window: real, now: real)
    requires Follows(h, dq, limit, window, now) && (dq != [] ==> dq[0] > now - window)
    ensures Within(h, now - window, now) == |dq|
  {
    var n := |h| - |dq|;
    assert h == h[..n] + dq;
    forall i | 0 <= i < |dq|
      ensures now - window < dq[i] <= now
    {
      assert dq[0] == h[n] && dq[i] == h[n + i];
    }
    WithinOfSplit(h[..n], dq, now - window, now);
  }

  /** A full deque holds exactly `limit` admissions, and its front is the one to wait for. */
  lemma FullDeque(h: seq<real>, dq: seq<real>, limit: int, window: real, now: real)
    requires Follows(h, dq, limit, window, now) && Within(h, now - window, now) == |dq| >= limit
    ensures !Admits(h, limit, window, now) && AfterCheck(h, limit, window, now) == h
    ensures |h| >= limit && dq != [] && dq[0] == h[|h| - limit] && RetryAfter(h, limit, window, now) > 0.0
  {
    NoWindowOverflows(h, limit, window, now);
    RetryIsExact(h, limit, window, now, now);
  }

  lemma AdmitFollows(h: seq<real>, dq: seq<real>, limit: int, window: real, now: real)
    requires Follows(h, dq, limit, window, now) && Admits(h, limit, window, now)
    ensures Follows(h + [now], dq + [now], limit, window, now)
  {
    CheckKeepsReachable(h, limit, window, now);
    var n := |h| - |dq|;
    assert (h + [now])[n..] == dq + [now] && (h + [now])[..n] == h[..n];
  }

  // ---- The limiter --------------------------------------------------------------------------

  /** `check` admits, refuses with a retry, or, when the limit is not positive, raises IndexError. */
  datatype Verdict = Admitted | Refused(retry: real) | IndexError

  class RateLimiter {
    const limit: int
    const window: real
    var hits: map<string, seq<real>>
    /** All admissions of every key, and the time of the latest check. */
    ghost var history: map<string, seq<real>>
    ghost var clock: real

    ghost function HistoryOf(key: string): seq<real>
      reads this`history
    {
      if key in history then history[key] else []
    }

    function Deque(key: string): seq<real>
      reads this`hits
    {
      if key in hits then hits[key] else []
    }

    ghost predicate Valid()
      reads this
    {
      if limit >= 1 then forall key :: Follows(HistoryOf(key), Deque(key), limit, window, clock)
      else forall key :: Deque(key) == []
    }

    constructor (limit: int, window: real, start: real)
      ensures Valid() && clock == start && this.limit == limit && this.window == window
      ensures forall key :: HistoryOf(key) == []
    {
      this.limit, this.window := limit, window;
      hits, history := map[], map[];
      clock := start;
    }

    /** Drops the admissions of the key that have left the window ending at `now`. */
    method Evict(key: string, now: real) returns (dq: seq<real>)
      requires Valid() && limit >= 1 && clock <= now
      modifies this`hits, this`clock
      ensures Valid() && clock == now && Deque(key) == dq
      ensures Within(HistoryOf(key), now - window, now) == |dq|
    {
      hide Follows;
      ghost var h := HistoryOf(key);
      dq := Deque(key);
      forall other { FollowsLater(HistoryOf(other), Deque(other), limit, window, clock, now); }
      clock := now;
      var cutoff := now - window;
      while dq != [] && dq[0] <= cutoff
        invariant Follows(h, dq, limit, window, now)
        modifies {}
      {
        DropFollows(h, dq, limit, window, now);
        dq := dq[1..];
      }
      DequeCountsWindow(h, dq, limit, window, now);
      hits := hits[key := dq];
    }

    /** Each decision is the rule applied to the whole history of the key. */
    method Check(key: string, now: real) returns (v: Verdict)
      requires Valid() && clock <= now
      modifies this
      ensures Valid() && clock == now
      ensures forall other :: other != key ==> HistoryOf(other) == old(HistoryOf(other))
      ensures limit < 1 ==> v == IndexError && HistoryOf(key) == old(HistoryOf(key))
      ensures limit >= 1 ==> HistoryOf(key) == AfterCheck(old(HistoryOf(key)), limit, window, now)
      ensures limit >= 1 ==> (v == Admitted <==> Admits(old(HistoryOf(key)), limit, window, now))
      ensures limit >= 1 && v != Admitted ==>
                |old(HistoryOf(key))| >= limit && v == Refused(RetryAfter(old(HistoryOf(key)), limit, window, now))
    {
      hide Within, Follows;
      if limit < 1 {
        hits := hits[key := []];
        clock := now;
        forall other
          ensures Deque(other) == []
        {
          assert old(Deque(other)) == [];
        }
        return IndexError;
      }
      var dq := Evict(key, now);
      ghost var h := HistoryOf(key);
      if |dq| >= limit {
        FullDeque(h, dq, limit, window, now);
        var retry := window - (now - dq[0]);
        return Refused(Max(0.0, retry));
      }
      AdmitFollows(h, dq, limit, window, now);
      label Before:
      hits := hits[key := dq + [now]];
      history := history[key := h + [now]];
      forall other
        ensures Follows(HistoryOf(other), Deque(other), limit, window, clock)
      {
        if other != key { assert Follows(old@Before(HistoryOf(other)), old@Before(Deque(other)), limit, window, clock); }
      }
      return Admitted;
    }
  }
}
