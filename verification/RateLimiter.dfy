/** The sliding-window limiter (services/shared/pkg/middleware/ratelimit.go): a pruned,
    expiring sorted set per address, against a limiter that keeps every admission.

    Requests of one address are served one at a time, each at a single instant in
    nanoseconds, and Redis answers every command. EXPIRE counts whole seconds, so the client
    cuts the window down to them, except that it rounds a window below one second up to one. */
module RateLimiter {
  import opened Basics

  const SECOND: nat := 1_000_000_000

  /** The time to live that the key gets for a window. */
  function Ttl(window: nat): nat {
    if 0 < window < SECOND then SECOND else window / SECOND * SECOND
  }

  /** A sorted set whose members are their own scores, with the key's expiry. */
  datatype ZSet = ZSet(members: set<nat>, expireAt: Option<nat>)

  const EMPTY := ZSet({}, None)

  /** An expired key reads as missing. */
  function Live(z: ZSet, now: nat): ZSet {
    if z.expireAt.Some? && z.expireAt.value <= now then EMPTY else z
  }

  /** ZREMRANGEBYSCORE key 0 windowStart. */
  function Pruned(z: ZSet, windowStart: int): ZSet {
    z.(members := set t | t in z.members && windowStart < t)
  }

  datatype Decision = Decision(served: bool, after: ZSet)

  /** Prune, count, then refuse, or add this instant and restart the expiry. */
  function Decide(limit: int, window: nat, z: ZSet, now: nat): Decision {
    var pruned := Pruned(Live(z, now), now - window);
    if limit <= |pruned.members| then Decision(false, pruned)
    else Decision(true, ZSet(pruned.members + {now}, Some(now + Ttl(window))))
  }

  // ---- The limiter that forgets nothing ----

  /** The admissions after instant `x`. */
  function After(history: seq<nat>, x: int): set<nat> {
    set t | t in history && x < t
  }

  predicate Allows(limit: int, window: nat, history: seq<nat>, now: nat) {
    |After(history, now - window)| < limit
  }

  /** The admissions of the forgetless limiter among requests at `times`. */
  function Admitted(limit: int, window: nat, times: seq<nat>): seq<nat> {
    if times == [] then []
    else
      var n := |times| - 1;
      var history := Admitted(limit, window, times[..n]);
      if Allows(limit, window, history, times[n]) then history + [times[n]] else history
  }

  /** The sorted set after requests at `times`. */
  function SetAfter(limit: int, window: nat, times: seq<nat>): ZSet {
    if times == [] then EMPTY
    else Decide(limit, window, SetAfter(limit, window, times[..|times| - 1]), times[|times| - 1]).after
  }

  predicate Increasing(times: seq<nat>) {
    forall i, j :: 0 <= i < j < |times| ==> times[i] < times[j]
  }

  // ---- What the code serves ----

  /** The requests among those at `times` that the pruned, expiring set lets through. */
  function Served(limit: int, window: nat, times: seq<nat>): seq<nat> {
    if times == [] then []
    else
      var n := |times| - 1;
      var served := Served(limit, window, times[..n]);
      if Decide(limit, window, SetAfter(limit, window, times[..n]), times[n]).served then served + [times[n]]
          else served
  }

  /** How long the set is sure to remember a request. */
  function Span(window: nat): nat {
    if window <= Ttl(window) then window else Ttl(window)
  }

  /** The requests served in a window that starts after instant `a`. */
  function InWindow(history: seq<nat>, a: int, window: nat): set<nat> {
    set t | t in history && a < t <= a + window
  }

  /** The set holds only served requests, all those of the last span, and lives at least one
      time to live longer than each of them. */
  ghost predicate Synced(window: nat, z: ZSet, history: seq<nat>, last: int) {
    && (forall t :: t in z.members ==> t in history)
    && (forall t :: t in history ==> t <= last)
    && (forall t :: t in history && last - Span(window) < t ==> t in z.members)
    && (z.members != {} ==> z.expireAt.Some?)
    && (forall t :: t in z.members ==> t + Ttl(window) <= z.expireAt.value)
  }

  lemma SubsetSize(a: set<nat>, b: set<nat>)
    requires a <= b
    ensures |a| <= |b|
  {
    assert b == a + (b - a);
  }

  /** One request, for every window: a refusal is deserved, and a request is served only while
      the span that ends with it has room. */
  lemma DecideIsFair(limit: int, window: nat, z: ZSet, history: seq<nat>, last: int, now: nat)
    requires Synced(window, z, history, last) && last < now
    ensures var d := Decide(limit, window, z, now);
      && (!d.served ==> limit <= |InWindow(history, now - window, window)|)
      && (d.served ==> |After(history, now - Span(window))| < limit)
      && Synced(window, d.after, if d.served then history + [now] else history, now)
  {
    var pruned := Pruned(Live(z, now), now - window).members;
    SubsetSize(pruned, InWindow(history, now - window, window));
    SubsetSize(After(history, now - Span(window)), pruned);
    DecideKeepsSync(limit, window, z, history, last, now);
  }

  lemma DecideKeepsSync(limit: int, window: nat, z: ZSet, history: seq<nat>, last: int, now: nat)
    requires Synced(window, z, history, last) && last < now
    ensures var d := Decide(limit, window, z, now);
      Synced(window, d.after, if d.served then history + [now] else history, now)
  {
  }

  // ---- What the set forgets ----

  /** The key last expired at `x`, or never: a request served since then is still remembered
      until it leaves the window, and one served before lies a time to live before `x`. */
  ghost predicate SinceReset(window: nat, z: ZSet, history: seq<nat>, last: int, x: int) {
    && x <= last
    && forall t :: t in history ==> t + window <= last || t + Ttl(window) <= x || (x <= t && t in z.members)
  }

  ghost predicate Accounted(window: nat, z: ZSet, history: seq<nat>, last: int) {
    exists x: int :: SinceReset(window, z, history, last, x)
  }

  /** The limiter remembers enough: it has nothing to remember, or its window is below one
      second, or the nanoseconds by which it exceeds whole seconds are fewer than its limit. */
  predicate Sufficient(limit: int, window: nat) {
    limit <= 0 || window < 1_000_000_000 || window % 1_000_000_000 < limit
  }

  /** They are what the time to live lacks of the window. */
  lemma SufficientTtl(limit: int, window: nat)
    ensures Sufficient(limit, window) <==> limit <= 0 || window - Ttl(window) < limit
  {
    assert window == window / SECOND * SECOND + window % SECOND;
  }

  function ResetAt(z: ZSet, x: int, now: nat): int {
    if z.expireAt.Some? && z.expireAt.value <= now then now else x
  }

  lemma DecideKeepsReset(limit: int, window: nat, z: ZSet, history: seq<nat>, last: int, x: int, now: nat)
    requires Synced(window, z, history, last) && SinceReset(window, z, history, last, x) && last < now
    ensures var d := Decide(limit, window, z, now);
      SinceReset(window, d.after, if d.served then history + [now] else history, now, ResetAt(z, x, now))
  {
  }

  lemma {:induction false} IntervalSize(s: set<nat>, lo: int, hi: int)
    requires lo <= hi && forall t :: t in s ==> lo < t <= hi
    ensures |s| <= hi - lo
    decreases hi - lo
  {
    if lo == hi {
      assert s == {};
    } else {
      IntervalSize(s - {hi}, lo, hi - 1);
      if hi in s { assert s == (s - {hi}) + {hi}; } else { assert s == s - {hi}; }
    }
  }

  /** What the window holds when a request is served: the remembered part fits the limit, or
      the forgotten part and the time since the reset leave room for no more than the nanoseconds
      that the key lacks. */
  lemma WindowHasRoom(limit: int, window: nat, z: ZSet, history: seq<nat>, last: int, x: int, now: nat)
    requires Synced(window, z, history, last) && SinceReset(window, z, history, last, x) && last < now
    requires Decide(limit, window, z, now).served && window - Ttl(window) < limit
    ensures |After(history, now - window)| < limit
  {
    var held := After(history, now - window);
    var pruned := Pruned(Live(z, now), now - window).members;
    var reset := ResetAt(z, x, now);
    if held <= pruned {
      SubsetSize(held, pruned);
    } else {
      var t0 :| t0 in held && t0 !in pruned;
      var forgotten := set t | t in held && t + Ttl(window) <= reset;
      assert t0 in forgotten;
      IntervalSize(forgotten, now - window, reset - Ttl(window));
      IntervalSize(held - forgotten, reset - 1, now - 1);
      assert held == forgotten + (held - forgotten);
    }
  }

  /** One request, if the limiter remembers enough: it is decided by the full history. */
  lemma AgreesStep(limit: int, window: nat, z: ZSet, history: seq<nat>, last: int, now: nat)
    requires Sufficient(limit, window) && last < now
    requires Synced(window, z, history, last) && Accounted(window, z, history, last)
    ensures Decide(limit, window, z, now).served <==> Allows(limit, window, history, now)
  {
    hide Synced, SinceReset, Sufficient;
    SufficientTtl(limit, window);
    if Decide(limit, window, z, now).served {
      var x :| SinceReset(window, z, history, last, x);
      WindowHasRoom(limit, window, z, history, last, x, now);
    } else {
      RefusedIsFull(limit, window, z, history, last, now);
    }
  }

  lemma RefusedIsFull(limit: int, window: nat, z: ZSet, history: seq<nat>, last: int, now: nat)
    requires Synced(window, z, history, last) && !Decide(limit, window, z, now).served
    ensures limit <= |After(history, now - window)|
  {
    SubsetSize(Pruned(Live(z, now), now - window).members, After(history, now - window));
  }

  lemma DecideAccounts(limit: int, window: nat, z: ZSet, history: seq<nat>, last: int, now: nat)
    requires Synced(window, z, history, last) && Accounted(window, z, history, last) && last < now
    ensures var d := Decide(limit, window, z, now);
      Accounted(window, d.after, if d.served then history + [now] else history, now)
  {
    hide Synced, SinceReset, Decide;
    var x :| SinceReset(window, z, history, last, x);
    DecideKeepsReset(limit, window, z, history, last, x, now);
  }

  lemma AccountedLater(window: nat, z: ZSet, history: seq<nat>, last: int, now: int)
    requires Accounted(window, z, history, last) && last <= now
    ensures Accounted(window, z, history, now)
  {
    var x :| SinceReset(window, z, history, last, x);
    assert SinceReset(window, z, history, now, x);
  }

  lemma SyncedLater(window: nat, z: ZSet, history: seq<nat>, last: int, now: int)
    requires Synced(window, z, history, last) && last <= now
    ensures Synced(window, z, history, now)
  {
  }

  function Last(times: seq<nat>): int { if times == [] then -1 else times[|times| - 1] }

  lemma {:induction false} SyncedAfter(limit: int, window: nat, times: seq<nat>)
    requires Increasing(times)
    ensures Synced(window, SetAfter(limit, window, times), Served(limit, window, times), Last(times))
    ensures Accounted(window, SetAfter(limit, window, times), Served(limit, window, times), Last(times))
  {
    hide Decide, Synced, SinceReset;
    if times != [] {
      var n := |times| - 1;
      var z, served := SetAfter(limit, window, times[..n]), Served(limit, window, times[..n]);
      SyncedAfter(limit, window, times[..n]);
      LastBefore(times);
      DecideIsFair(limit, window, z, served, Last(times[..n]), times[n]);
      DecideAccounts(limit, window, z, served, Last(times[..n]), times[n]);
    } else {
      NothingServed(limit, window);
    }
  }

  lemma LastBefore(times: seq<nat>)
    requires Increasing(times) && times != []
    ensures Increasing(times[..|times| - 1]) && Last(times[..|times| - 1]) < Last(times) == times[|times| - 1]
  {
  }

  lemma NothingServed(limit: int, window: nat)
    ensures Synced(window, SetAfter(limit, window, []), Served(limit, window, []), -1)
    ensures Accounted(window, SetAfter(limit, window, []), Served(limit, window, []), -1)
  {
    assert SinceReset(window, EMPTY, [], -1, -1);
  }

  /** If the limiter remembers enough, it serves what the limiter that forgets nothing admits. */
  lemma {:induction false} ServedIsAdmitted(limit: int, window: nat, times: seq<nat>)
    requires Sufficient(limit, window) && Increasing(times)
    ensures Served(limit, window, times) == Admitted(limit, window, times)
  {
    hide Decide, Synced, Accounted, Allows;
    if times != [] {
      var n := |times| - 1;
      ServedIsAdmitted(limit, window, times[..n]);
      SyncedAfter(limit, window, times[..n]);
      LastBefore(times);
      AgreesStep(limit, window, SetAfter(limit, window, times[..n]), Served(limit, window, times[..n]),
                 Last(times[..n]), times[n]);
    }
  }

  // ---- Agreement ----

  /** The limiter decides as the one that forgets nothing, on every sequence of requests. */
  ghost predicate Agrees(limit: int, window: nat) {
    forall times: seq<nat>, now: nat :: Increasing(times + [now]) ==>
      (Decide(limit, window, SetAfter(limit, window, times), now).served <==>
       Allows(limit, window, Admitted(limit, window, times), now))
  }

  lemma IncreasingPrefix(times: seq<nat>, now: nat)
    requires Increasing(times + [now])
    ensures Increasing(times) && Last(times) < now
  {
    forall i, j | 0 <= i < j < |times| ensures times[i] < times[j] {
      assert (times + [now])[i] < (times + [now])[j];
    }
    if times != [] {
      assert (times + [now])[|times| - 1] < (times + [now])[|times|];
    }
  }

  /** The instants 1 to k. */
  function FirstInstants(k: nat): (r: seq<nat>)
    ensures |r| == k && forall i :: 0 <= i < k ==> r[i] == i + 1
  {
    seq(k, i => i + 1)
  }

  function ElementsOf(times: seq<nat>): set<nat> { set t | t in times }

  lemma {:induction false} InstantsSize(k: nat)
    ensures |ElementsOf(FirstInstants(k))| == k
  {
    if k == 0 {
      assert ElementsOf(FirstInstants(k)) == {};
    } else {
      InstantsSize(k - 1);
      assert FirstInstants(k) == FirstInstants(k - 1) + [k];
      assert ElementsOf(FirstInstants(k)) == ElementsOf(FirstInstants(k - 1)) + {k};
    }
  }

  /** The set after the first k of them. */
  function BurstSet(window: nat, k: nat): ZSet {
    ZSet(ElementsOf(FirstInstants(k)), if k == 0 then None else Some(k + Ttl(window)))
  }

  lemma BurstStep(limit: int, window: nat, k: nat)
    requires 1 <= k <= limit && limit <= window - Ttl(window)
    ensures Decide(limit, window, BurstSet(window, k - 1), k) == Decision(true, BurstSet(window, k))
    ensures Allows(limit, window, FirstInstants(k - 1), k)
  {
    TtlIsLong(window);
    hide Ttl;
    InstantsSize(k - 1);
    OneInstantMore(k);
    var z := BurstSet(window, k - 1);
    assert Live(z, k) == z;
    assert Pruned(z, k - window) == z by { InstantsPruned(k - 1, k - window); }
    InstantsAfter(k - 1, k - window);
  }

  lemma TtlIsLong(window: nat)
    requires Ttl(window) < window
    ensures SECOND <= Ttl(window)
  {
  }

  lemma OneInstantMore(k: nat)
    requires 1 <= k
    ensures ElementsOf(FirstInstants(k)) == ElementsOf(FirstInstants(k - 1)) + {k}
  {
    assert FirstInstants(k) == FirstInstants(k - 1) + [k];
  }

  lemma InstantsPruned(k: nat, windowStart: int)
    requires windowStart <= 0
    ensures (set t | t in ElementsOf(FirstInstants(k)) && windowStart < t) == ElementsOf(FirstInstants(k))
  {
  }

  lemma InstantsAfter(k: nat, x: int)
    requires x <= 0
    ensures After(FirstInstants(k), x) == ElementsOf(FirstInstants(k))
  {
  }

  /** As many requests as the limit, at the first instants, are all served and admitted. */
  lemma {:induction false} BurstIsServed(limit: int, window: nat, k: nat)
    requires k <= limit && limit <= window - Ttl(window)
    ensures var times := FirstInstants(k);
      && Served(limit, window, times) == times && Admitted(limit, window, times) == times
      && SetAfter(limit, window, times) == BurstSet(window, k)
  {
    hide Decide, Allows, ElementsOf;
    var times := FirstInstants(k);
    if k == 0 {
      assert times == [];
      assert ElementsOf([]) == {} by { NoElements(); }
    } else {
      BurstIsServed(limit, window, k - 1);
      BurstStep(limit, window, k);
      assert times[..k - 1] == FirstInstants(k - 1);
      assert times == FirstInstants(k - 1) + [k];
    }
  }

  lemma NoElements()
    ensures ElementsOf([]) == {}
  {
  }

  /** After such a burst the key expires inside the window, and one more request is served
      although the full history refuses it. */
  lemma ExpiresTooEarly(limit: int, window: nat)
    requires !Sufficient(limit, window)
    ensures var times, now := FirstInstants(limit), limit + Ttl(window);
      && Increasing(times + [now]) && now <= window
      && Served(limit, window, times) == times
      && Decide(limit, window, SetAfter(limit, window, times), now).served
      && !Allows(limit, window, Admitted(limit, window, times), now)
  {
    SufficientTtl(limit, window);
    var times, now := FirstInstants(limit), limit + Ttl(window);
    BurstIsServed(limit, window, limit);
    InstantsSize(limit);
    assert After(times, now - window) == ElementsOf(times);
    assert Live(SetAfter(limit, window, times), now) == EMPTY;
    assert Pruned(EMPTY, now - window).members == {};
  }

  /** Main result: a limiter decides exactly as the one that forgets nothing if and only if the
      nanoseconds by which the window outlasts the key are fewer than its limit (or its limit
      admits nothing). */
  lemma AgreesExactly(limit: int, window: nat)
    ensures Agrees(limit, window) <==> Sufficient(limit, window)
  {
    hide Synced, Accounted, Decide, Allows;
    if Sufficient(limit, window) {
      forall times: seq<nat>, now: nat | Increasing(times + [now])
        ensures Decide(limit, window, SetAfter(limit, window, times), now).served <==>
                Allows(limit, window, Admitted(limit, window, times), now)
      {
        IncreasingPrefix(times, now);
        SyncedAfter(limit, window, times);
        ServedIsAdmitted(limit, window, times);
        AgreesStep(limit, window, SetAfter(limit, window, times), Served(limit, window, times), Last(times), now);
      }
    } else {
      ExpiresTooEarly(limit, window);
    }
  }

  /** So limiters of every limit agree if and only if the key outlives the window: that is, for
      windows of whole seconds or below one second. */
  lemma AgreesExactlyWhenKeyOutlivesWindow(window: nat)
    ensures (forall limit: int :: Agrees(limit, window)) <==> window % 1_000_000_000 == 0 || window < 1_000_000_000
  {
    hide Agrees;
    forall limit: int ensures Agrees(limit, window) <==> Sufficient(limit, window) {
      AgreesExactly(limit, window);
    }
    assert Sufficient(1, window) <==> window % 1_000_000_000 == 0 || window < 1_000_000_000;
  }

  // ---- What the limiter guarantees ----

  /** Main result, for every window: a request is refused only if `limit` requests were served
      in the window that ends with it. */
  lemma RefusalsAreDeserved(limit: int, window: nat, times: seq<nat>, now: nat)
    requires Increasing(times + [now])
    requires !Decide(limit, window, SetAfter(limit, window, times), now).served
    ensures limit <= |InWindow(Served(limit, window, times), now - window, window)|
  {
    IncreasingPrefix(times, now);
    SyncedAfter(limit, window, times);
    DecideIsFair(limit, window, SetAfter(limit, window, times), Served(limit, window, times), Last(times), now);
  }

  /** One more request, served because the span that ends with it had room. */
  lemma RoomForOneMore(served: seq<nat>, now: nat, limit: int, a: int, span: nat)
    requires |InWindow(served, a, span)| <= limit && |After(served, now - span)| < limit
    ensures |InWindow(served + [now], a, span)| <= limit
  {
    var before := InWindow(served, a, span);
    if a < now <= a + span {
      assert InWindow(served + [now], a, span) == before + {now};
      SubsetSize(before, After(served, now - span));
    } else {
      assert InWindow(served + [now], a, span) == before;
    }
  }

  /** Main result, for every window: at most `limit` requests are served in any interval as
      long as the set is sure to remember, wherever it starts. */
  lemma {:induction false} SpansHoldAtMostLimit(limit: int, window: nat, times: seq<nat>, a: int)
    requires Increasing(times) && 0 <= limit
    ensures |InWindow(Served(limit, window, times), a, Span(window))| <= limit
  {
    hide Decide, SetAfter, Synced, Span, InWindow, After;
    if times == [] {
      NothingInWindow(a, Span(window));
    } else {
      var n := |times| - 1;
      var served := Served(limit, window, times[..n]);
      SpansHoldAtMostLimit(limit, window, times[..n], a);
      SyncedAfter(limit, window, times[..n]);
      DecideIsFair(limit, window, SetAfter(limit, window, times[..n]), served, Last(times[..n]), times[n]);
      if Decide(limit, window, SetAfter(limit, window, times[..n]), times[n]).served {
        RoomForOneMore(served, times[n], limit, a, Span(window));
      }
    }
  }

  lemma NothingInWindow(a: int, window: nat)
    ensures InWindow([], a, window) == {}
  {
  }

  /** At most `limit` requests are served in any interval as long as the window. */
  ghost predicate Bounded(limit: int, window: nat) {
    forall times: seq<nat>, a: int :: Increasing(times) ==> |InWindow(Served(limit, window, times), a, window)| <= limit
  }

  lemma {:induction false} SufficientIsBounded(limit: int, window: nat, times: seq<nat>, a: int)
    requires Increasing(times) && 0 <= limit && Sufficient(limit, window)
    ensures |InWindow(Served(limit, window, times), a, window)| <= limit
  {
    hide Decide, SetAfter, Synced, Accounted, InWindow, Sufficient;
    if times == [] {
      NothingInWindow(a, window);
    } else {
      var n := |times| - 1;
      var served := Served(limit, window, times[..n]);
      SufficientIsBounded(limit, window, times[..n], a);
      SyncedAfter(limit, window, times[..n]);
      LastBefore(times);
      AgreesStep(limit, window, SetAfter(limit, window, times[..n]), served, Last(times[..n]), times[n]);
      if Decide(limit, window, SetAfter(limit, window, times[..n]), times[n]).served {
        RoomForOneMore(served, times[n], limit, a, window);
      }
    }
  }

  /** Main result: no window holds more than `limit` served requests, wherever it starts, if
      and only if the nanoseconds by which it outlasts the key are fewer than the limit. */
  lemma WindowsHoldAtMostLimit(limit: int, window: nat)
    requires 0 <= limit
    ensures Bounded(limit, window) <==> Sufficient(limit, window)
  {
    hide SetAfter, Decide;
    if Sufficient(limit, window) {
      forall times: seq<nat>, a: int | Increasing(times)
        ensures |InWindow(Served(limit, window, times), a, window)| <= limit
      {
        SufficientIsBounded(limit, window, times, a);
      }
    } else {
      OneTooMany(limit, window);
    }
  }

  lemma OneTooMany(limit: int, window: nat)
    requires !Sufficient(limit, window)
    ensures !Bounded(limit, window)
  {
    hide SetAfter, Decide, Sufficient;
    SufficientTtl(limit, window);
    ExpiresTooEarly(limit, window);
    var burst, now := FirstInstants(limit), limit + Ttl(window);
    var times := burst + [now];
    assert times[..limit] == burst;
    assert Served(limit, window, times) == times;
    InstantsSize(limit);
    assert InWindow(times, 0, window) == ElementsOf(burst) + {now};
  }

  // ---- The middleware ----

  class Limiter {
    const limit: int
    const window: nat
    var zsets: map<string, ZSet>
    ghost var histories: map<string, seq<nat>>
    ghost var clock: int

    function SetOf(ip: string): ZSet
      reads this
    {
      if ip in zsets then zsets[ip] else EMPTY
    }

    ghost function HistoryOf(ip: string): seq<nat>
      reads this
    {
      if ip in histories then histories[ip] else []
    }

    /** Each address's set is in step with the requests it was served. */
    ghost predicate Valid()
      reads this
    {
      forall ip ::
        Synced(window, SetOf(ip), HistoryOf(ip), clock) && Accounted(window, SetOf(ip), HistoryOf(ip), clock)
    }

    constructor (limit: int, window: nat)
      ensures Valid() && this.limit == limit && this.window == window && clock == -1
      ensures forall ip :: HistoryOf(ip) == []
    {
      this.limit, this.window := limit, window;
      zsets, histories, clock := map[], map[], -1;
      new;
      assert SinceReset(window, EMPTY, [], -1, -1);
    }

    /** The two pipelines on one key. */
    method PruneAndCount(before: ZSet, now: nat) returns (served: bool, z: ZSet)
      ensures Decision(served, z) == Decide(limit, window, before, now)
    {
      z := before;
      if z.expireAt.Some? && z.expireAt.value <= now { z := EMPTY; }
      var windowStart := now - window;
      z := z.(members := set t | t in z.members && windowStart < t);
      var count := |z.members|;
      if count >= limit {
        served := false;
      } else {
        z := ZSet(z.members + {now}, Some(now + Ttl(window)));
        served := true;
      }
    }

    /** One request of `ip` at instant `now`. */
    method Middleware(ip: string, now: nat) returns (served: bool)
      requires Valid() && clock < now
      modifies this
      ensures Valid() && clock == now
      ensures Decision(served, SetOf(ip)) == Decide(limit, window, old(SetOf(ip)), now)
      ensures Sufficient(limit, window) ==> (served <==> Allows(limit, window, old(HistoryOf(ip)), now))
      ensures !served ==> limit <= |InWindow(old(HistoryOf(ip)), now - window, window)|
      ensures served ==> |After(old(HistoryOf(ip)), now - Span(window))| < limit
      ensures HistoryOf(ip) == old(HistoryOf(ip)) + if served then [now] else []
      ensures forall other :: other != ip ==>
                SetOf(other) == old(SetOf(other)) && HistoryOf(other) == old(HistoryOf(other))
    {
      hide Synced, Accounted, Sufficient, Allows, Decide, After, InWindow;
      DecideIsFair(limit, window, SetOf(ip), HistoryOf(ip), clock, now);
      DecideAccounts(limit, window, SetOf(ip), HistoryOf(ip), clock, now);
      if Sufficient(limit, window) { AgreesStep(limit, window, SetOf(ip), HistoryOf(ip), clock, now); }
      var z: ZSet;
      served, z := PruneAndCount(SetOf(ip), now);
      assert HistoryOf(ip) + [] == HistoryOf(ip);
      ghost var before := clock;
      zsets := zsets[ip := z];
      histories := histories[ip := HistoryOf(ip) + if served then [now] else []];
      clock := now;
      forall other
        ensures Synced(window, SetOf(other), HistoryOf(other), clock)
        ensures Accounted(window, SetOf(other), HistoryOf(other), clock)
      {
        if other != ip {
          assert Synced(window, old(SetOf(other)), old(HistoryOf(other)), before);
          SyncedLater(window, SetOf(other), HistoryOf(other), before, now);
          AccountedLater(window, SetOf(other), HistoryOf(other), before, now);
        }
      }
    }
  }
}
