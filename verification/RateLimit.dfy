/** The in-process sliding-window limiter: one deque of accepted times for each key. */
module RateLimit {

  datatype Limit = Limit(maxRequests: nat, window: nat)

  /** `key` is the bucket's name and the caller's identity joined by a colon. */
  datatype Call = Call(key: string, now: int)

  /** `buckets` is the module's dictionary; `taken` is history: every accepted time, never evicted. */
  datatype State = State(buckets: map<string, seq<int>>, taken: map<string, seq<int>>)

  function At(m: map<string, seq<int>>, key: string): seq<int> {
    if key in m then m[key] else []
  }

  function Evict(times: seq<int>, now: int, window: nat): seq<int> {
    if |times| > 0 && now - times[0] > window then Evict(times[1..], now, window) else times
  }

  predicate Accepts(s: State, c: Call, limit: Limit) {
    |Evict(At(s.buckets, c.key), c.now, limit.window)| < limit.maxRequests
  }

  function Step(s: State, c: Call, limit: Limit): State {
    var left := Evict(At(s.buckets, c.key), c.now, limit.window);
    if Accepts(s, c, limit)
    then State(s.buckets[c.key := left + [c.now]], s.taken[c.key := At(s.taken, c.key) + [c.now]])
    else s.(buckets := s.buckets[c.key := left])
  }

  function Play(limits: string -> Limit, calls: seq<Call>): State {
    if |calls| == 0 then State(map[], map[])
    else
      var c := calls[|calls| - 1];
      Step(Play(limits, calls[..|calls| - 1]), c, limits(c.key))
  }

  /** Calls are in the order in which they got the lock.  The clock is read before that, so a call's time may
      be behind that of an earlier one, by the time it waited. */
  ghost predicate Within(calls: seq<Call>, skew: nat) {
    forall i, j :: 0 <= i < j < |calls| ==> calls[i].now <= calls[j].now + skew
  }

  /** How many of `times` lie in the closed interval [lo, hi]. */
  function CountIn(times: seq<int>, lo: int, hi: int): nat {
    if |times| == 0 then 0
    else CountIn(times[..|times| - 1], lo, hi) + (if lo <= times[|times| - 1] <= hi then 1 else 0)
  }

  // ---------------------------------------------------------------- the module

  class Limiter {
    var buckets: map<string, seq<int>>
    ghost var taken: map<string, seq<int>>

    ghost function Now(): State
      reads this
    {
      State(buckets, taken)
    }

    constructor ()
      ensures Now() == State(map[], map[])
    {
      buckets, taken := map[], map[];
    }

    /** `rate_limit`: popleft while the head is older than the window, then refuse or append. */
    method Check(c: Call, limit: Limit) returns (refused: bool)
      modifies this
      ensures refused == !Accepts(old(Now()), c, limit)
      ensures Now() == Step(old(Now()), c, limit)
    {
      var times := if c.key in buckets then buckets[c.key] else [];
      while |times| > 0 && c.now - times[0] > limit.window
        invariant Evict(times, c.now, limit.window) == Evict(At(old(buckets), c.key), c.now, limit.window)
        decreases |times|
      {
        times := times[1..];
      }
      refused := |times| >= limit.maxRequests;
      if !refused {
        times := times + [c.now];
        taken := taken[c.key := At(taken, c.key) + [c.now]];
      }
      buckets := buckets[c.key := times];
    }
  }

  // ---------------------------------------------------------------- evicted and kept

  ghost predicate Near(times: seq<int>, skew: nat) {
    forall i, j :: 0 <= i < j < |times| ==> times[i] <= times[j] + skew
  }

  /** The deque is the history without a prefix that is older than the window, seen from `top`. */
  ghost predicate Suffix(history: seq<int>, kept: seq<int>, top: int, window: nat) {
    && |kept| <= |history| && kept == history[|history| - |kept|..]
    && forall i :: 0 <= i < |history| - |kept| ==> top - history[i] > window
  }

  /** Accepted calls with maxRequests - 1 or more between them are further apart than the window less the skew. */
  ghost predicate Spaced(history: seq<int>, limit: Limit, skew: nat) {
    forall i, j :: 0 <= i && i + limit.maxRequests <= j < |history| ==> history[j] - history[i] > limit.window - skew
  }

  /** `top` bounds the times of all calls so far, refused ones included. */
  ghost predicate Good(history: seq<int>, kept: seq<int>, top: int, limit: Limit, skew: nat) {
    && Near(history, skew) && (forall i :: 0 <= i < |history| ==> history[i] <= top)
    && Suffix(history, kept, top, limit.window)
    && Spaced(history, limit, skew)
  }

  ghost predicate KeyOk(s: State, key: string, top: int, limit: Limit, skew: nat) {
    Good(At(s.taken, key), At(s.buckets, key), top, limit, skew)
  }

  lemma {:induction false} EvictSuffix(history: seq<int>, kept: seq<int>, top: int, now: int, window: nat)
    requires Suffix(history, kept, top, window) && now <= top
    ensures Suffix(history, Evict(kept, now, window), top, window)
    decreases |kept|
  {
    if |kept| > 0 && now - kept[0] > window { EvictSuffix(history, kept[1..], top, now, window); }
  }

  /** Granting: the deque had room, so whatever is maxRequests back or more has left it. */
  lemma GrantKeeps(history: seq<int>, left: seq<int>, top: int, now: int, limit: Limit, skew: nat)
    requires Near(history, skew) && (forall i :: 0 <= i < |history| ==> history[i] <= top)
    requires Suffix(history, left, top, limit.window) && Spaced(history, limit, skew) && |left| < limit.maxRequests
    requires now <= top <= now + skew
    ensures Near(history + [now], skew) && Suffix(history + [now], left + [now], top, limit.window)
    ensures Spaced(history + [now], limit, skew)
  {
    var h := history + [now];
    forall i, j | 0 <= i && i + limit.maxRequests <= j < |h| ensures h[j] - h[i] > limit.window - skew {
      if j < |history| {
        assert history[j] - history[i] > limit.window - skew;
      } else {
        assert top - history[i] > limit.window;
      }
    }
  }

  lemma GoodStep(history: seq<int>, kept: seq<int>, top: int, now: int, limit: Limit, skew: nat)
    requires Good(history, kept, top, limit, skew) && now <= top <= now + skew
    ensures var left := Evict(kept, now, limit.window);
      if |left| < limit.maxRequests
      then Good(history + [now], left + [now], top, limit, skew)
      else Good(history, left, top, limit, skew)
  {
    EvictSuffix(history, kept, top, now, limit.window);
    hide Evict, Spaced, Near;
    var left := Evict(kept, now, limit.window);
    if |left| < limit.maxRequests { GrantKeeps(history, left, top, now, limit, skew); }
  }

  /** One call, seen through one key. */
  lemma StepAt(s: State, c: Call, limit: Limit, key: string)
    ensures var left, t := Evict(At(s.buckets, c.key), c.now, limit.window), Step(s, c, limit);
      if c.key != key then At(t.taken, key) == At(s.taken, key) && At(t.buckets, key) == At(s.buckets, key)
      else if |left| < limit.maxRequests
      then At(t.taken, key) == At(s.taken, key) + [c.now] && At(t.buckets, key) == left + [c.now]
      else At(t.taken, key) == At(s.taken, key) && At(t.buckets, key) == left
  {
    hide Evict;
  }

  lemma StepKeeps(s: State, c: Call, limit: Limit, key: string, other: Limit, top: int, skew: nat)
    requires KeyOk(s, key, top, other, skew) && c.now <= top <= c.now + skew && (key == c.key ==> other == limit)
    ensures KeyOk(Step(s, c, limit), key, top, other, skew)
  {
    hide Good, Step, At, Evict;
    StepAt(s, c, limit, key);
    GoodStep(At(s.taken, key), At(s.buckets, key), top, c.now, other, skew);
  }

  lemma Higher(s: State, key: string, top: int, higher: int, limit: Limit, skew: nat)
    requires KeyOk(s, key, top, limit, skew) && top <= higher
    ensures KeyOk(s, key, higher, limit, skew)
  {
    hide At;
  }

  lemma {:induction false} PlayKeeps(limits: string -> Limit, calls: seq<Call>, key: string, top: int, skew: nat)
    requires Within(calls, skew) && forall i :: 0 <= i < |calls| ==> calls[i].now <= top
    ensures KeyOk(Play(limits, calls), key, top, limits(key), skew)
  {
    if |calls| > 0 {
      var front, c := calls[..|calls| - 1], calls[|calls| - 1];
      var low := if top <= c.now + skew then top else c.now + skew;
      PlayKeeps(limits, front, key, low, skew);
      StepKeeps(Play(limits, front), c, limits(c.key), key, limits(key), low, skew);
      Higher(Play(limits, calls), key, low, top, limits(key), skew);
    }
  }

  // ---------------------------------------------------------------- counting

  lemma {:induction false} CountAfter(times: seq<int>, lo: int, hi: int, k: nat)
    requires k <= |times| && forall i :: 0 <= i < k ==> !(lo <= times[i] <= hi)
    ensures CountIn(times, lo, hi) <= |times| - k
    ensures (forall i :: k <= i < |times| ==> lo <= times[i] <= hi) ==> CountIn(times, lo, hi) == |times| - k
  {
    if |times| > k {
      CountAfter(times[..|times| - 1], lo, hi, k);
    } else if k > 0 {
      CountAfter(times[..|times| - 1], lo, hi, k - 1);
    }
  }

  /** If the last entry lies in the interval, those maxRequests back or more do not. */
  lemma {:induction false} SpacedCount(history: seq<int>, limit: Limit, skew: nat, lo: int)
    requires Spaced(history, limit, skew)
    ensures CountIn(history, lo, lo + limit.window - skew) <= limit.maxRequests
  {
    if |history| > 0 {
      var last, hi := |history| - 1, lo + limit.window - skew;
      var k := if |history| > limit.maxRequests then |history| - limit.maxRequests else 0;
      if lo <= history[last] <= hi {
        forall i | 0 <= i < k ensures !(lo <= history[i] <= hi) {
          assert history[last] - history[i] > limit.window - skew;
        }
        hide Spaced, CountIn;
        CountAfter(history, lo, hi, k);
      } else {
        assert Spaced(history[..last], limit, skew);
        hide Spaced;
        SpacedCount(history[..last], limit, skew, lo);
      }
    }
  }

  // ---------------------------------------------------------------- every run

  lemma {:induction false} LatestBounds(calls: seq<Call>) returns (top: int)
    ensures forall i :: 0 <= i < |calls| ==> calls[i].now <= top
  {
    top := 0;
    if |calls| > 0 {
      top := LatestBounds(calls[..|calls| - 1]);
      if calls[|calls| - 1].now > top { top := calls[|calls| - 1].now; }
    }
  }

  /** No closed interval of the window's length, less the skew, holds more than maxRequests accepted calls of
      a key. */
  lemma NeverExceeds(limits: string -> Limit, calls: seq<Call>, skew: nat, key: string, lo: int)
    requires Within(calls, skew)
    ensures CountIn(At(Play(limits, calls).taken, key), lo, lo + limits(key).window - skew) <= limits(key).maxRequests
  {
    var top := LatestBounds(calls);
    hide Play, CountIn, At, Near, Spaced, Suffix;
    PlayKeeps(limits, calls, key, top, skew);
    SpacedCount(At(Play(limits, calls).taken, key), limits(key), skew, lo);
  }

  lemma PlayMore(limits: string -> Limit, front: seq<Call>, c: Call)
    ensures Play(limits, front + [c]) == Step(Play(limits, front), c, limits(c.key))
  {
    assert (front + [c])[..|front|] == front;
  }

  lemma CountMore(front: seq<int>, t: int, lo: int, hi: int)
    ensures CountIn(front + [t], lo, hi) == CountIn(front, lo, hi) + if lo <= t <= hi then 1 else 0
  {
    assert (front + [t])[..|front|] == front;
  }

  /** Nothing less will do: for every window and skew there is a run that fits three calls of two into an
      interval one longer. */
  lemma SkewIsLost(limits: string -> Limit, skew: nat, key: string)
    requires limits(key).maxRequests == 2 && 0 < skew <= limits(key).window + 1
    ensures var w := limits(key).window;
      var calls := [Call(key, 0), Call(key, 0)] + [Call(key, w + 1)] + [Call(key, w + 1 - skew)];
      Within(calls, skew) && CountIn(At(Play(limits, calls).taken, key), 0, w - skew + 1) == 3
  {
    var w := limits(key).window;
    TwoAtOnce(limits, key);
    Late(w, w + 1 - skew);
    CountTwo(w - skew + 1);
    hide Play, CountIn, At, Evict;
    Grant(limits, [Call(key, 0), Call(key, 0)], Call(key, w + 1), [0, 0], [0, 0], []);
    ThenTwo(limits, [Call(key, 0), Call(key, 0)] + [Call(key, w + 1)], key, w, skew, [0, 0]);
  }

  lemma TwoAtOnce(limits: string -> Limit, key: string)
    requires limits(key).maxRequests == 2
    ensures var s := Play(limits, [Call(key, 0), Call(key, 0)]); At(s.taken, key) == [0, 0] == At(s.buckets, key)
  {
    var a := Call(key, 0);
    assert At(Play(limits, []).taken, key) == [] && At(Play(limits, []).buckets, key) == [];
    Late(limits(key).window, 0);
    hide Play, At, Evict;
    assert [] + [a] == [a] && [a] + [a] == [a, a] && [] + [0] == [0] && [0] + [0] == [0, 0];
    Grant(limits, [], a, [], [], []);
    Grant(limits, [a], a, [0], [0], [0]);
  }

  lemma ThenTwo(limits: string -> Limit, front: seq<Call>, key: string, w: nat, skew: nat, history: seq<int>)
    requires limits(key) == Limit(2, w) && 0 < skew <= w + 1 && CountIn(history, 0, w - skew + 1) == 2
    requires At(Play(limits, front).taken, key) == history + [w + 1]
    requires At(Play(limits, front).buckets, key) == [] + [w + 1]
    ensures CountIn(At(Play(limits, front + [Call(key, w + 1 - skew)]).taken, key), 0, w - skew + 1) == 3
  {
    Late(w, w + 1 - skew);
    hide Play, At, CountIn, Evict;
    Grant(limits, front, Call(key, w + 1 - skew), history + [w + 1], [w + 1], [w + 1]);
    CountMore(history, w + 1, 0, w - skew + 1);
    CountMore(history + [w + 1], w + 1 - skew, 0, w - skew + 1);
  }

  lemma Late(w: nat, now: int)
    requires now <= w + 1
    ensures Evict([], 0, w) == [] && Evict([0], 0, w) == [0] && Evict([0, 0], w + 1, w) == []
    ensures Evict([w + 1], now, w) == [w + 1]
  {
    assert [0, 0][1..] == [0] && [0][1..] == [];
    assert Evict([0, 0], w + 1, w) == Evict([0], w + 1, w) == Evict([], w + 1, w);
  }

  /** A call that finds room, seen through its own key. */
  lemma Grant(limits: string -> Limit, front: seq<Call>, c: Call, history: seq<int>, kept: seq<int>, left: seq<int>)
    requires At(Play(limits, front).taken, c.key) == history && At(Play(limits, front).buckets, c.key) == kept
    requires Evict(kept, c.now, limits(c.key).window) == left && |left| < limits(c.key).maxRequests
    ensures At(Play(limits, front + [c]).taken, c.key) == history + [c.now]
    ensures At(Play(limits, front + [c]).buckets, c.key) == left + [c.now]
  {
    hide Play, At, Evict, Step;
    PlayMore(limits, front, c);
    StepAt(Play(limits, front), c, limits(c.key), c.key);
  }

  lemma CountTwo(hi: nat)
    ensures CountIn([0, 0], 0, hi) == 2
  {
    CountMore([], 0, 0, hi);
    CountMore([0], 0, 0, hi);
    assert [] + [0] == [0] && [0] + [0] == [0, 0];
  }

  lemma LastIsLatest(calls: seq<Call>, c: Call)
    requires Within(calls + [c], 0)
    ensures Within(calls, 0) && forall i :: 0 <= i < |calls| ==> calls[i].now <= c.now
  {
    var all := calls + [c];
    forall i | 0 <= i < |calls| ensures calls[i].now <= c.now { assert all[i].now <= all[|calls|].now + 0; }
    forall i, j | 0 <= i < j < |calls| ensures calls[i].now <= calls[j].now + 0 {
      assert all[i].now <= all[j].now + 0;
    }
  }

  /** A call is refused exactly when the window that ends now already holds maxRequests accepted calls
      of its key, provided that calls get the lock in the order of their times. */
  lemma RefusedExactly(limits: string -> Limit, calls: seq<Call>, c: Call)
    requires Within(calls + [c], 0)
    ensures var s, limit := Play(limits, calls), limits(c.key);
      Accepts(s, c, limit) <==> CountIn(At(s.taken, c.key), c.now - limit.window, c.now) < limit.maxRequests
  {
    LastIsLatest(calls, c);
    hide *;
    PlayKeeps(limits, calls, c.key, c.now, 0);
    CountIsKept(Play(limits, calls), c, limits(c.key));
  }

  /** With the head of an ordered deque in the window, all of it is. */
  lemma {:induction false} EvictFresh(kept: seq<int>, now: int, window: nat)
    requires Near(kept, 0)
    ensures forall i :: 0 <= i < |Evict(kept, now, window)| ==> now - Evict(kept, now, window)[i] <= window
    decreases |kept|
  {
    if |kept| > 0 && now - kept[0] > window { EvictFresh(kept[1..], now, window); }
  }

  lemma KeptCount(history: seq<int>, kept: seq<int>, now: int, limit: Limit)
    requires Good(history, kept, now, limit, 0)
    ensures CountIn(history, now - limit.window, now) == |Evict(kept, now, limit.window)|
  {
    hide Evict, CountIn, Spaced;
    EvictSuffix(history, kept, now, now, limit.window);
    assert Near(kept, 0);
    EvictFresh(kept, now, limit.window);
    WithinWindow(history, Evict(kept, now, limit.window), now, limit.window);
  }

  lemma WithinWindow(history: seq<int>, left: seq<int>, now: int, window: nat)
    requires Suffix(history, left, now, window)
    requires forall i :: 0 <= i < |left| ==> now - left[i] <= window
    requires forall i :: 0 <= i < |history| ==> history[i] <= now
    ensures CountIn(history, now - window, now) == |left|
  {
    hide CountIn;
    var k := |history| - |left|;
    forall i | k <= i < |history| ensures now - window <= history[i] <= now { assert history[i] == left[i - k]; }
    CountAfter(history, now - window, now, k);
  }

  lemma CountIsKept(s: State, c: Call, limit: Limit)
    requires KeyOk(s, c.key, c.now, limit, 0)
    ensures Accepts(s, c, limit) <==> CountIn(At(s.taken, c.key), c.now - limit.window, c.now) < limit.maxRequests
  {
    hide Good, Evict, CountIn, At;
    KeptCount(At(s.taken, c.key), At(s.buckets, c.key), c.now, limit);
  }

  function OnlyKey(calls: seq<Call>, key: string): seq<Call> {
    if |calls| == 0 then []
    else
      OnlyKey(calls[..|calls| - 1], key) + (if calls[|calls| - 1].key == key then [calls[|calls| - 1]] else [])
  }

  /** What a key is granted does not depend on the calls made under other keys. */
  lemma {:induction false} KeysIndependent(limits: string -> Limit, calls: seq<Call>, key: string)
    ensures At(Play(limits, calls).taken, key) == At(Play(limits, OnlyKey(calls, key)).taken, key)
    ensures At(Play(limits, calls).buckets, key) == At(Play(limits, OnlyKey(calls, key)).buckets, key)
  {
    hide Step, At;
    if |calls| > 0 {
      var front, c, only := calls[..|calls| - 1], calls[|calls| - 1], OnlyKey(calls, key);
      KeysIndependent(limits, front, key);
      StepAt(Play(limits, front), c, limits(c.key), key);
      StepAt(Play(limits, OnlyKey(front, key)), c, limits(c.key), key);
      if c.key == key {
        assert only[..|only| - 1] == OnlyKey(front, key) && only[|only| - 1] == c;
      } else {
        assert only == OnlyKey(front, key);
      }
    }
  }
}
