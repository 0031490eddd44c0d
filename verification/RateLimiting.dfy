/** The sliding-window rate limiter behind failed sign-ins. */
module RateLimiting {
  /** A call and its answer. */
  datatype Call = Call(key: string, at: real, accepted: bool)

  /** Times of the accepted calls with this key, oldest first. */
  function Accepted(h: seq<Call>, key: string): (ts: seq<real>)
    ensures |ts| <= |h|
  {
    if h == [] then []
    else
      var c := h[|h| - 1];
      Accepted(h[..|h| - 1], key) + if c.key == key && c.accepted then [c.at] else []
  }

  /** How many of the times lie within the last `window` before `now`, both ends included. */
  function Recent(ts: seq<real>, now: real, window: real): nat {
    if ts == [] then 0 else Recent(ts[..|ts| - 1], now, window) + if now - ts[|ts| - 1] <= window then 1 else 0
  }

  ghost predicate Ordered(ts: seq<real>) {
    forall i, j :: 0 <= i < j < |ts| ==> ts[i] <= ts[j]
  }

  ghost predicate Chronological(h: seq<Call>) {
    forall i, j :: 0 <= i < j < |h| ==> h[i].at <= h[j].at
  }

  /** Any two accepted calls that are `limit` or more apart in the list are more than `window` apart in time. */
  ghost predicate Spread(ts: seq<real>, limit: int, window: real) {
    forall i, j :: 0 <= i < j < |ts| && j - i >= limit ==> ts[j] - ts[i] > window
  }

  lemma AcceptedAppend(h: seq<Call>, c: Call, key: string)
    ensures Accepted(h + [c], key) == Accepted(h, key) + if c.key == key && c.accepted then [c.at] else []
  {
    assert (h + [c])[..|h|] == h;
  }

  lemma {:induction false} AcceptedInTime(h: seq<Call>, key: string, now: real)
    requires Chronological(h) && (h != [] ==> h[|h| - 1].at <= now)
    ensures Ordered(Accepted(h, key)) && forall i :: 0 <= i < |Accepted(h, key)| ==> Accepted(h, key)[i] <= now
  {
    if h != [] {
      AcceptedInTime(h[..|h| - 1], key, h[|h| - 1].at);
    }
  }

  /** Dropping the times that are too old counts the recent ones. */
  lemma {:induction false} RecentIsTheKeptTail(gone: seq<real>, q: seq<real>, now: real, window: real)
    requires forall i :: 0 <= i < |gone| ==> now - gone[i] > window
    requires forall i :: 0 <= i < |q| ==> now - q[i] <= window
    ensures Recent(gone + q, now, window) == |q|
    decreases |gone| + |q|
  {
    var ts := gone + q;
    if q != [] {
      assert ts[..|ts| - 1] == gone + q[..|q| - 1];
      RecentIsTheKeptTail(gone, q[..|q| - 1], now, window);
    } else if gone != [] {
      assert ts[..|ts| - 1] == gone[..|gone| - 1] + q;
      RecentIsTheKeptTail(gone[..|gone| - 1], q, now, window);
    }
  }

  /** Positions of the accepted calls in the closed interval of length `window` from x. */
  function InInterval(ts: seq<real>, x: real, window: real): set<nat> {
    set i: nat | i < |ts| && x <= ts[i] <= x + window
  }

  lemma {:induction false} Between(S: set<nat>, lo: nat, n: nat)
    requires forall i :: i in S ==> lo <= i < lo + n
    ensures |S| <= n
    decreases n
  {
    if n > 0 {
      Between(S - {lo + n - 1}, lo, n - 1);
    } else {
      assert S == {};
    }
  }

  lemma {:induction false} LeastOf(S: set<nat>) returns (m: nat)
    requires S != {}
    ensures m in S && forall i :: i in S ==> m <= i
    decreases |S|
  {
    m :| m in S;
    if S != {m} {
      var k := LeastOf(S - {m});
      assert forall i :: i in S ==> i == m || i in S - {m};
      if k < m { m := k; }
    }
  }

  lemma SpreadBoundsIntervals(ts: seq<real>, limit: nat, x: real, window: real)
    requires Spread(ts, limit, window)
    ensures limit > 0 ==> |InInterval(ts, x, window)| <= limit
  {
    var S := InInterval(ts, x, window);
    if S != {} && limit > 0 {
      var lo := LeastOf(S);
      assert forall i :: i in S && i > lo ==> ts[i] - ts[lo] <= window;
      Between(S, lo, limit);
    }
  }

  /** The queue is the end of the accepted times; what was dropped is older than the window at time `last`. */
  ghost predicate Tail(ts: seq<real>, q: seq<real>, last: real, window: real) {
    |q| <= |ts| && q == ts[|ts| - |q|..] && forall i :: 0 <= i < |ts| - |q| ==> last - ts[i] > window
  }

  /** Drops the times that fell out of the window. */
  method Purge(q0: seq<real>, now: real, window: real, ghost ts: seq<real>) returns (q: seq<real>)
    requires Tail(ts, q0, now, window) && Ordered(ts)
    ensures Tail(ts, q, now, window) && |q| == Recent(ts, now, window)
  {
    q := q0;
    while q != [] && now - q[0] > window
      invariant Tail(ts, q, now, window)
      decreases |q|
    {
      q := q[1..];
    }
    assert ts == ts[..|ts| - |q|] + q;
    assert forall i :: 0 <= i < |q| ==> now - q[i] <= window;
    RecentIsTheKeptTail(ts[..|ts| - |q|], q, now, window);
  }

  /** One more accepted time keeps the list spread when fewer than `limit` are recent. */
  lemma AcceptKeepsSpread(ts: seq<real>, q: seq<real>, now: real, limit: int, window: real)
    requires Tail(ts, q, now, window) && |q| < limit && Spread(ts, limit, window)
    ensures Spread(ts + [now], limit, window) && Tail(ts + [now], q + [now], now, window)
  {
  }

  function LastOf(h: seq<Call>): real { if h == [] then 0.0 else h[|h| - 1].at }

  function QueueOf(hits: map<string, seq<real>>, key: string): seq<real> { if key in hits then hits[key] else [] }

  /** What the limiter keeps for one key is right. */
  ghost predicate KeyOk(h: seq<Call>, hits: map<string, seq<real>>, limit: int, window: real, key: string) {
    var ts := Accepted(h, key);
    Spread(ts, limit, window) && (limit <= 0 ==> ts == []) && Tail(ts, QueueOf(hits, key), LastOf(h), window)
  }

  lemma OtherKeyStays(h: seq<Call>, hits: map<string, seq<real>>, limit: int, window: real, c: Call, q: seq<real>,
      k: string)
    requires KeyOk(h, hits, limit, window, k) && k != c.key && (h != [] ==> LastOf(h) <= c.at)
    ensures KeyOk(h + [c], hits[c.key := q], limit, window, k) && Accepted(h + [c], k) == Accepted(h, k)
  {
    AcceptedAppend(h, c, k);
    QueueLater(h, k, QueueOf(hits, k), c.at, window);
    hide Spread, Tail;
  }

  /** The key that called, after its queue `q` was purged and, if there was room, extended. */
  lemma CallingKeyStays(h: seq<Call>, hits: map<string, seq<real>>, limit: int, window: real, c: Call, q: seq<real>)
    requires KeyOk(h, hits, limit, window, c.key) && Tail(Accepted(h, c.key), q, c.at, window)
        && c.accepted == (|q| < limit)
    ensures KeyOk(h + [c], hits[c.key := if c.accepted then q + [c.at] else q], limit, window, c.key)
  {
    AcceptedAppend(h, c, c.key);
    if c.accepted { AcceptKeepsSpread(Accepted(h, c.key), q, c.at, limit, window); }
    hide Spread, Tail;
  }

  class RateLimiter {
    const limit: int
    const window: real
    var hits: map<string, seq<real>>
    ghost var history: seq<Call>  // every call since the last reset

    ghost predicate Valid()
      reads this
    {
      Chronological(history) && forall key :: KeyOk(history, hits, limit, window, key)
    }

    constructor (limit: int, window: real)
      ensures Valid() && history == [] && this.limit == limit && this.window == window
    {
      this.limit, this.window, hits, history := limit, window, map[], [];
    }

    /** Answers a call at time `now`. It is refused exactly when `limit` accepted calls with the same key lie within the
        last `window`; other keys neither matter nor change. */
    method Check(key: string, now: real) returns (ok: bool)
      requires Valid() && (history != [] ==> LastOf(history) <= now)
      modifies this
      ensures Valid() && history == old(history) + [Call(key, now, ok)]
      ensures ok <==> Recent(Accepted(old(history), key), now, window) < limit
      ensures forall k :: k != key ==> Accepted(history, k) == Accepted(old(history), k) && (k in hits
                                       <==> k in old(hits)) && (k in hits ==> hits[k] == old(hits)[k])
    {
      ghost var h, was := history, hits;
      hide KeyOk, Spread, Tail, Recent;
      assert Tail(Accepted(h, key), QueueOf(hits, key), now, window) && Ordered(Accepted(h, key)) by {
        Prepared(h, hits, limit, window, key, now);
      }
      var q := Purge(if key in hits then hits[key] else [], now, window, Accepted(h, key));
      ok := |q| < limit;
      ghost var c := Call(key, now, ok);
      CallingKeyStays(h, was, limit, window, c, q);
      if ok { q := q + [now]; }
      hits := hits[key := q];
      history := h + [c];
      forall k | k != key ensures KeyOk(history, hits, limit, window, k) && Accepted(history, k) == Accepted(h, k) {
        OtherKeyStays(h, was, limit, window, c, q, k);
      }
    }

    method Reset()
      modifies this
      ensures Valid() && history == [] && hits == map[]
    {
      hits, history := map[], [];
    }

    /** In any closed interval of length `window` at most `limit` calls with the same key are accepted. */
    lemma AtMostLimit(key: string, x: real)
      requires Valid()
      ensures |InInterval(Accepted(history, key), x, window)| <= if limit > 0 then limit else 0
    {
      assert KeyOk(history, hits, limit, window, key);
      if limit > 0 { SpreadBoundsIntervals(Accepted(history, key), limit, x, window); }
      hide Spread, Tail;
    }
  }

  lemma QueueLater(h: seq<Call>, key: string, q: seq<real>, now: real, window: real)
    requires Tail(Accepted(h, key), q, LastOf(h), window) && (h != [] ==> LastOf(h) <= now)
    ensures Tail(Accepted(h, key), q, now, window)
  {
  }

  lemma Prepared(h: seq<Call>, hits: map<string, seq<real>>, limit: int, window: real, key: string, now: real)
    requires Chronological(h) && KeyOk(h, hits, limit, window, key) && (h != [] ==> LastOf(h) <= now)
    ensures Tail(Accepted(h, key), QueueOf(hits, key), now, window) && Ordered(Accepted(h, key))
  {
    hide Spread, Tail;
    AcceptedInTime(h, key, now);
    hide Chronological, Ordered;
    QueueLater(h, key, QueueOf(hits, key), now, window);
  }
}
