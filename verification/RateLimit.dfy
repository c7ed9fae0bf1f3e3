/** The per-address rate limiter: fixed windows that start with a key's first request, over a
    map of counters mutated in place, with a cleanup that deletes expired counters. */
module RateLimit {
  import opened Schema

  datatype Entry = Entry(count: int, windowEnd: int)

  /** The limiter's state as a value. */
  type Table = map<string, Entry>

  /** The entry that still counts at `now`; an expired one is as good as none. */
  function Live(t: Table, key: string, now: int): Option<Entry> {
    if key in t && now <= t[key].windowEnd then Some(t[key]) else None
  }

  function Admits(t: Table, key: string, now: int, limit: int): bool {
    Live(t, key, now).None? || Live(t, key, now).value.count < limit
  }

  function AfterRequest(t: Table, key: string, now: int, limit: int, window: int): Table {
    match Live(t, key, now)
    case None => t[key := Entry(1, now + window)]
    case Some(e) => if e.count < limit then t[key := e.(count := e.count + 1)] else t
  }

  function AfterCleanup(t: Table, now: int): Table {
    map k | k in t && now <= t[k].windowEnd :: t[k]
  }

  class Bucket {
    var count: int
    const windowEnd: int

    constructor (count: int, windowEnd: int)
      ensures this.count == count && this.windowEnd == windowEnd
    {
      this.count := count;
      this.windowEnd := windowEnd;
    }
  }

  class RateLimiter {
    var buckets: map<string, Bucket>
    const limit: int
    const window: int

    constructor (limit: int, window: int)
      ensures Valid() && Contents() == map[]
      ensures this.limit == limit && this.window == window
    {
      buckets := map[];
      this.limit := limit;
      this.window := window;
    }

    function Cells(): set<Bucket>
      reads this
    {
      set k | k in buckets :: buckets[k]
    }

    /** No two keys share a bucket. */
    ghost predicate Valid()
      reads this
    {
      forall j, k :: j in buckets && k in buckets && buckets[j] == buckets[k] ==> j == k
    }

    function Contents(): Table
      reads this, Cells()
    {
      map k | k in buckets :: Entry(buckets[k].count, buckets[k].windowEnd)
    }

    method Allow(key: string, now: int) returns (ok: bool)
      requires Valid()
      modifies this, Cells()
      ensures Valid() && fresh(Cells() - old(Cells()))
      ensures ok == Admits(old(Contents()), key, now, limit)
      ensures Contents() == AfterRequest(old(Contents()), key, now, limit, window)
    {
      ghost var before := Contents();
      if key !in buckets || now > buckets[key].windowEnd {
        var b := new Bucket(1, now + window);
        buckets := buckets[key := b];
        assert Contents() == before[key := Entry(1, now + window)];
        return true;
      }
      var b := buckets[key];
      if b.count >= limit {
        return false;
      }
      b.count := b.count + 1;
      assert Contents() == before[key := before[key].(count := before[key].count + 1)];
      return true;
    }

    method Cleanup(now: int)
      requires Valid()
      modifies this
      ensures Valid() && Cells() <= old(Cells())
      ensures Contents() == AfterCleanup(old(Contents()), now)
    {
      var rest := buckets.Keys;
      while rest != {}
        invariant rest <= old(buckets).Keys
        invariant forall k :: k in buckets <==>
                    k in old(buckets) && (k in rest || now <= old(buckets)[k].windowEnd)
        invariant forall k :: k in buckets ==> buckets[k] == old(buckets)[k]
        decreases rest
      {
        var k :| k in rest;
        if now > buckets[k].windowEnd {
          buckets := buckets - {k};
        }
        rest := rest - {k};
      }
    }
  }

  /** The text before the first comma, or all of it. */
  method FirstOf(chain: string) returns (ip: string)
    ensures ip <= chain && ',' !in ip
    ensures ip == chain || chain[|ip|] == ','
  {
    for i := 0 to |chain|
      invariant ',' !in chain[..i]
    {
      if chain[i] == ',' {
        return chain[..i];
      }
    }
    return chain;
  }

  /** The text before the last colon, or all of it when there is none. */
  method WithoutPort(addr: string) returns (host: string)
    ensures host <= addr
    ensures if ':' in addr then |host| < |addr| && addr[|host|] == ':' && ':' !in addr[|host| + 1..] else host == addr
  {
    var i := |addr| - 1;
    while i >= 0
      invariant -1 <= i < |addr|
      invariant ':' !in addr[i + 1..]
    {
      if addr[i] == ':' {
        return addr[..i];
      }
      i := i - 1;
    }
    return addr;
  }

  /** The limiter's key: the first forwarded address, else the proxy's, else the peer's host. */
  method RealIp(forwardedFor: string, realIp: string, remoteAddr: string) returns (key: string)
    ensures forwardedFor != "" ==>
              key <= forwardedFor && ',' !in key && (key == forwardedFor || forwardedFor[|key|] == ',')
    ensures forwardedFor == "" && realIp != "" ==> key == realIp
    ensures forwardedFor == "" && realIp == "" ==>
              key <= remoteAddr &&
              if ':' in remoteAddr then
                |key| < |remoteAddr| && remoteAddr[|key|] == ':' && ':' !in remoteAddr[|key| + 1..]
              else key == remoteAddr
  {
    if forwardedFor != "" {
      key := FirstOf(forwardedFor);
    } else if realIp != "" {
      key := realIp;
    } else {
      key := WithoutPort(remoteAddr);
    }
  }

  datatype Event = Request(key: string, at: int) | Cleanup(at: int)

  /** Times do not decrease, from `now` on. */
  predicate InOrder(now: int, h: seq<Event>)
    decreases |h|
  {
    h == [] || (now <= h[0].at && InOrder(h[0].at, h[1..]))
  }

  function After(t: Table, e: Event, limit: int, window: int): Table {
    match e
    case Request(key, at) => AfterRequest(t, key, at, limit, window)
    case Cleanup(at) => AfterCleanup(t, at)
  }

  /** The answers to a history's requests. */
  function Answers(t: Table, h: seq<Event>, limit: int, window: int): seq<bool>
    decreases |h|
  {
    if h == [] then []
    else
      (if h[0].Request? then [Admits(t, h[0].key, h[0].at, limit)] else []) +
      Answers(After(t, h[0], limit, window), h[1..], limit, window)
  }

  function Requests(h: seq<Event>): seq<Event> {
    if h == [] then [] else (if h[0].Request? then [h[0]] else []) + Requests(h[1..])
  }

  /** The two limiters can be told apart only by expired buckets. */
  ghost predicate Alike(t: Table, u: Table, now: int) {
    forall key, at :: now <= at ==> Live(t, key, at) == Live(u, key, at)
  }

  /** What a step makes of one key's live entry, later on. */
  function LiveAfter(live: Option<Entry>, e: Event, key: string, at: int, limit: int, window: int): Option<Entry> {
    var x :=
      if !e.Request? || e.key != key then live
      else
        match live
        case None => Some(Entry(1, e.at + window))
        case Some(b) => Some(if b.count < limit then b.(count := b.count + 1) else b);
    if x.Some? && at <= x.value.windowEnd then x else None
  }

  lemma LiveStep(t: Table, e: Event, key: string, at: int, limit: int, window: int)
    requires e.at <= at
    ensures Live(After(t, e, limit, window), key, at) == LiveAfter(Live(t, key, e.at), e, key, at, limit, window)
  {
  }

  lemma AlikeStep(t: Table, u: Table, now: int, e: Event, limit: int, window: int)
    requires Alike(t, u, now) && now <= e.at
    ensures Alike(After(t, e, limit, window), if e.Request? then After(u, e, limit, window) else u, e.at)
    ensures e.Request? ==> Admits(t, e.key, e.at, limit) == Admits(u, e.key, e.at, limit)
  {
    var t' := After(t, e, limit, window);
    var u' := if e.Request? then After(u, e, limit, window) else u;
    forall key, at | e.at <= at
      ensures Live(t', key, at) == Live(u', key, at)
    {
      assert Live(t, key, e.at) == Live(u, key, e.at) && Live(t, key, at) == Live(u, key, at);
      LiveStep(t, e, key, at, limit, window);
      LiveStep(u, e, key, at, limit, window);
    }
    if e.Request? {
      assert Live(t, e.key, e.at) == Live(u, e.key, e.at);
    }
  }

  lemma {:induction false} AnswersAlike(t: Table, u: Table, now: int, h: seq<Event>, limit: int, window: int)
    requires Alike(t, u, now) && InOrder(now, h)
    ensures Answers(t, h, limit, window) == Answers(u, Requests(h), limit, window)
    decreases |h|
  {
    if h != [] {
      AlikeStep(t, u, now, h[0], limit, window);
      var t', u' := After(t, h[0], limit, window), if h[0].Request? then After(u, h[0], limit, window) else u;
      AnswersAlike(t', u', h[0].at, h[1..], limit, window);
      var r := Requests(h);
      if h[0].Request? {
        assert r[0] == h[0] && r[1..] == Requests(h[1..]);
        assert Answers(u, r, limit, window) ==
               [Admits(u, r[0].key, r[0].at, limit)] + Answers(u', r[1..], limit, window);
      } else {
        assert r == Requests(h[1..]);
      }
    }
  }

  /** Cleanup is invisible: however cleanups are interleaved with the requests of a history, on
      a clock that does not run back, every answer is the one of a limiter that never deletes. */
  lemma CleanupTransparent(now: int, h: seq<Event>, limit: int, window: int)
    requires InOrder(now, h)
    ensures Answers(map[], h, limit, window) == Answers(map[], Requests(h), limit, window)
  {
    AnswersAlike(map[], map[], now, h, limit, window);
  }

  /** The answers to one key's requests. */
  function AnswersTo(t: Table, h: seq<Event>, key: string, limit: int, window: int): seq<bool>
    decreases |h|
  {
    if h == [] then []
    else
      (if h[0].Request? && h[0].key == key then [Admits(t, key, h[0].at, limit)] else []) +
      AnswersTo(After(t, h[0], limit, window), h[1..], key, limit, window)
  }

  function Only(h: seq<Event>, key: string): seq<Event> {
    if h == [] then []
    else (if h[0].Request? && h[0].key == key then [h[0]] else []) + Only(h[1..], key)
  }

  lemma {:induction false} KeysApart(t: Table, u: Table, now: int, h: seq<Event>, key: string, limit: int, window: int)
    requires InOrder(now, h)
    requires forall at :: now <= at ==> Live(t, key, at) == Live(u, key, at)
    ensures AnswersTo(t, h, key, limit, window) == Answers(u, Only(h, key), limit, window)
    decreases |h|
  {
    if h != [] {
      var t' := After(t, h[0], limit, window);
      var own := h[0].Request? && h[0].key == key;
      var u' := if own then After(u, h[0], limit, window) else u;
      assert Live(t, key, h[0].at) == Live(u, key, h[0].at);
      forall at | h[0].at <= at
        ensures Live(t', key, at) == Live(u', key, at)
      {
        assert Live(t, key, at) == Live(u, key, at);
        LiveStep(t, h[0], key, at, limit, window);
        LiveStep(u, h[0], key, at, limit, window);
      }
      KeysApart(t', u', h[0].at, h[1..], key, limit, window);
      var r := Only(h, key);
      if own {
        assert r[0] == h[0] && r[1..] == Only(h[1..], key);
        assert Answers(u, r, limit, window) == [Admits(u, key, r[0].at, limit)] + Answers(u', r[1..], limit, window);
      } else {
        assert r == Only(h[1..], key);
      }
    }
  }

  /** Keys are independent: a key's answers are those of a limiter that sees no other key. */
  lemma KeysIndependent(now: int, h: seq<Event>, key: string, limit: int, window: int)
    requires InOrder(now, h)
    ensures AnswersTo(map[], h, key, limit, window) == Answers(map[], Only(h, key), limit, window)
  {
    KeysApart(map[], map[], now, h, key, limit, window);
  }

  function Most(limit: int): int {
    if limit < 1 then 1 else limit
  }

  /** A request's place: its window began at `start`, and it is the `nth` request in it, admitted or
      not. */
  datatype Seat = Seat(start: int, nth: nat)

  /** A request takes the next seat of the window of the one before, or opens a new window when that
      one's length is over. */
  function NextSeat(last: Option<Seat>, at: int, window: int): Seat {
    if last.Some? && at <= last.value.start + window then Seat(last.value.start, last.value.nth + 1) else Seat(at, 1)
  }

  /** Which of the key's requests have a seat within the limit. */
  function Seated(last: Option<Seat>, h: seq<Event>, key: string, limit: int, window: int): seq<bool>
    decreases |h|
  {
    if h == [] then []
    else if h[0].Request? && h[0].key == key then
      var seat := NextSeat(last, h[0].at, window);
      [seat.nth <= Most(limit)] + Seated(Some(seat), h[1..], key, limit, window)
    else Seated(last, h[1..], key, limit, window)
  }

  /** The key's bucket, while it lasts, counts the seats taken up to the limit. */
  ghost predicate Counts(t: Table, key: string, now: int, last: Option<Seat>, limit: int, window: int) {
    && (last.Some? ==> last.value.nth >= 1)
    && forall at :: now <= at ==>
         Live(t, key, at) ==
         if last.Some? && at <= last.value.start + window then
           Some(Entry(if last.value.nth < Most(limit) then last.value.nth else Most(limit), last.value.start + window))
         else None
  }

  lemma CountsOn(t: Table, key: string, now: int, last: Option<Seat>, e: Event, limit: int, window: int)
    requires Counts(t, key, now, last, limit, window) && now <= e.at
    ensures Counts(After(t, e, limit, window), key, e.at,
                   if e.Request? && e.key == key then Some(NextSeat(last, e.at, window)) else last, limit, window)
    ensures e.Request? && e.key == key ==>
              (Admits(t, key, e.at, limit) <==> NextSeat(last, e.at, window).nth <= Most(limit))
  {
    var next := if e.Request? && e.key == key then Some(NextSeat(last, e.at, window)) else last;
    forall at | e.at <= at
      ensures Live(After(t, e, limit, window), key, at) ==
              if next.Some? && at <= next.value.start + window then
                Some(Entry(if next.value.nth < Most(limit) then next.value.nth else Most(limit),
                           next.value.start + window))
              else None
    {
      LiveStep(t, e, key, at, limit, window);
    }
  }

  lemma {:induction false} SeatsFrom(t: Table, now: int, h: seq<Event>, key: string, last: Option<Seat>,
                                     limit: int, window: int)
    requires InOrder(now, h) && Counts(t, key, now, last, limit, window)
    ensures AnswersTo(t, h, key, limit, window) == Seated(last, h, key, limit, window)
    decreases |h|
  {
    if h != [] {
      CountsOn(t, key, now, last, h[0], limit, window);
      var next := if h[0].Request? && h[0].key == key then Some(NextSeat(last, h[0].at, window)) else last;
      SeatsFrom(After(t, h[0], limit, window), h[0].at, h[1..], key, next, limit, window);
    }
  }

  /** The answers of the limiter are those of fixed windows: in any history with cleanups, a key's
      request is admitted exactly when it is among the first `limit` of its window, which began with
      its first request and which no later request, admitted or refused, makes any longer. */
  lemma FixedWindows(now: int, h: seq<Event>, key: string, limit: int, window: int)
    requires InOrder(now, h)
    ensures AnswersTo(map[], h, key, limit, window) == Seated(None, h, key, limit, window)
  {
    SeatsFrom(map[], now, h, key, None, limit, window);
  }

  /** A refused request leaves the buckets as they are. */
  lemma RefusedUnchanged(t: Table, key: string, now: int, limit: int, window: int)
    requires !Admits(t, key, now, limit)
    ensures AfterRequest(t, key, now, limit, window) == t
  {
  }

  /** Requests for `key` admitted at times from `lo` to `hi`, both included. */
  function Admitted(t: Table, h: seq<Event>, key: string, lo: int, hi: int, limit: int, window: int): nat
    decreases |h|
  {
    if h == [] then 0
    else
      var e := h[0];
      (if e.Request? && e.key == key && lo <= e.at <= hi && Admits(t, key, e.at, limit) then 1 else 0) +
      Admitted(After(t, e, limit, window), h[1..], key, lo, hi, limit, window)
  }

  /** The key's last window, in time, whether or not its bucket has been deleted: `n` requests
      were admitted from `lo` on when it stood at `last`, after `j` earlier windows that reach
      past `lo`. The first request of a window that began before `lo` is not among them. */
  ghost predicate Spent(last: Entry, n: int, j: nat, lo: int, limit: int, window: int) {
    && 1 <= last.count <= Most(limit)
    && (if last.windowEnd < lo then n == 0
        else
          || (lo + j * (window + 1) <= last.windowEnd - window && n <= Most(limit) * j + last.count)
          || (lo + j * (window + 1) <= last.windowEnd && n <= Most(limit) * j + last.count - 1))
  }

  /** The table knows of the key's last window while that window lasts. */
  ghost predicate Shows(t: Table, key: string, now: int, last: Entry) {
    forall at :: now <= at ==> Live(t, key, at) == if at <= last.windowEnd then Some(last) else None
  }

  /** The key's last window after a step. */
  function LastAfter(last: Entry, e: Event, key: string, limit: int, window: int): Entry {
    if !e.Request? || e.key != key then last
    else if last.windowEnd < e.at then Entry(1, e.at + window)
    else if last.count < limit then last.(count := last.count + 1)
    else last
  }

  lemma ShowsStep(t: Table, key: string, now: int, last: Entry, e: Event, limit: int, window: int)
    requires Shows(t, key, now, last) && now <= e.at
    ensures Shows(After(t, e, limit, window), key, e.at, LastAfter(last, e, key, limit, window))
  {
    forall at | e.at <= at
      ensures Live(After(t, e, limit, window), key, at) ==
              var x := LastAfter(last, e, key, limit, window); if at <= x.windowEnd then Some(x) else None
    {
      assert Live(t, key, e.at) == if e.at <= last.windowEnd then Some(last) else None;
      LiveStep(t, e, key, at, limit, window);
    }
  }

  /** A window that is still open takes another request. */
  lemma SpendsMore(last: Entry, n: int, j: nat, lo: int, at: int, limit: int, window: int)
    requires Spent(last, n, j, lo, limit, window)
    requires at <= last.windowEnd && last.count < limit
    ensures Spent(last.(count := last.count + 1), if lo <= at then n + 1 else n, j, lo, limit, window)
  {
  }

  /** A new window begins. */
  lemma SpendsAnew(last: Entry, n: int, j: nat, lo: int, at: int, counts: bool, limit: int, window: int)
    returns (j': nat)
    requires Spent(last, n, j, lo, limit, window) && window >= 0
    requires last.windowEnd < at && (counts ==> lo <= at)
    ensures Spent(Entry(1, at + window), if counts then n + 1 else n, j', lo, limit, window)
  {
    j' := if last.windowEnd < lo then 0 else j + 1;
    assert (j + 1) * (window + 1) == j * (window + 1) + (window + 1);
    assert Most(limit) * (j + 1) == Most(limit) * j + Most(limit);
  }

  lemma Scales(a: int, b: int, m: int)
    requires a <= b && 0 <= m
    ensures a * m <= b * m
  {
  }

  /** What a closed interval of k windows' length admits at most: its windows all begin in it, the
      first of them at its start, or the first began a window's length earlier with one request. */
  function Peak(k: nat, limit: int, window: nat): int {
    var early := Most(limit) * (k * window / (window + 1) + 1);
    var late := Most(limit) * ((k + 1) * window / (window + 1) + 1) - 1;
    if early < late then late else early
  }

  /** Division counts how often a gap fits. */
  lemma Fits(span: nat, gap: nat, j: nat)
    requires gap > 0
    ensures j * gap <= span <==> j <= span / gap
  {
    var q := span / gap;
    assert span == gap * q + span % gap;
    if j <= q {
      Scales(j, q, gap);
    } else {
      Scales(q + 1, j, gap);
      assert (q + 1) * gap == q * gap + gap;
    }
  }

  /** A window and `j` more a gap apart, each with `m` requests, are no more than those that fit. */
  lemma FullWindows(span: nat, gap: nat, j: nat, m: nat)
    requires gap > 0 && j * gap <= span
    ensures m * j + m <= m * (span / gap + 1)
  {
    Fits(span, gap, j);
    Ordered(m, j + 1, span / gap + 1);
  }

  lemma Ordered(m: nat, a: nat, b: nat)
    ensures m * (a + 1) == m * a + m
    ensures a <= b ==> m * a <= m * b
    ensures a < b ==> m * a + m <= m * b
  {
    if a < b {
      Ordered(m, a, b - 1);
      assert m * b == m * (b - 1) + m;
    }
  }

  /** `bound` is what `k` windows' length from `lo` to `hi` may admit. */
  ghost predicate Bounds(lo: int, hi: int, k: nat, bound: int, limit: int, window: int) {
    window >= 0 && hi == lo + k * window && bound == Peak(k, limit, window)
  }

  /** A window that began by `hi` is not far enough on to have spent more than the bound. */
  lemma SpentBound(last: Entry, n: int, j: nat, lo: int, hi: int, k: nat, bound: int, limit: int, window: int)
    requires Spent(last, n, j, lo, limit, window) && Bounds(lo, hi, k, bound, limit, window)
    requires last.windowEnd - window <= hi
    ensures n <= bound
  {
    var m := Most(limit);
    if last.windowEnd < lo {
      FullWindows(k * window, window + 1, 0, m);
    } else if lo + j * (window + 1) <= last.windowEnd - window && n <= m * j + last.count {
      FullWindows(k * window, window + 1, j, m);
    } else {
      assert (k + 1) * window == k * window + window;
      FullWindows((k + 1) * window, window + 1, j, m);
    }
  }

  lemma {:induction false} Bounded(t: Table, now: int, h: seq<Event>, key: string, lo: int, hi: int, k: nat, bound: int,
                                   limit: int, window: int, last: Entry, n: int, j: nat)
    requires InOrder(now, h) && Bounds(lo, hi, k, bound, limit, window)
    requires Shows(t, key, now, last) && Spent(last, n, j, lo, limit, window)
    requires n <= bound && last.windowEnd - window <= now
    ensures n + Admitted(t, h, key, lo, hi, limit, window) <= bound
    decreases |h|
  {
    if h != [] {
      var e := h[0];
      var last' := LastAfter(last, e, key, limit, window);
      ShowsStep(t, key, now, last, e, limit, window);
      assert Live(t, key, e.at) == if e.at <= last.windowEnd then Some(last) else None;
      var n', j' := n, j;
      if e.Request? && e.key == key {
        var counts := lo <= e.at <= hi && Admits(t, key, e.at, limit);
        n', j' := Spend(last, n, j, lo, e, counts, limit, window);
        if counts {
          SpentBound(last', n', j', lo, hi, k, bound, limit, window);
        }
      }
      Bounded(After(t, e, limit, window), e.at, h[1..], key, lo, hi, k, bound, limit, window, last', n', j');
    }
  }

  /** One request of the key's own. */
  lemma Spend(last: Entry, n: int, j: nat, lo: int, e: Event, counts: bool, limit: int, window: int)
    returns (n': int, j': nat)
    requires Spent(last, n, j, lo, limit, window) && window >= 0
    requires e.Request?
    requires counts ==> lo <= e.at && (last.windowEnd < e.at || last.count < limit)
    ensures Spent(LastAfter(last, e, e.key, limit, window), n', j', lo, limit, window)
    ensures n' == if counts then n + 1 else n
  {
    n', j' := if counts then n + 1 else n, j;
    if last.windowEnd < e.at {
      j' := SpendsAnew(last, n, j, lo, e.at, counts, limit, window);
    } else if last.count < limit {
      SpendsMore(last, n, j, lo, e.at, limit, window);
      SpendsLess(last.(count := last.count + 1), n, j, lo, e.at, counts, limit, window);
    }
  }

  lemma SpendsLess(last: Entry, n: int, j: nat, lo: int, at: int, counts: bool, limit: int, window: int)
    requires Spent(last, if lo <= at then n + 1 else n, j, lo, limit, window)
    requires counts ==> lo <= at
    requires at <= last.windowEnd && (last.windowEnd < lo ==> n == 0)
    ensures Spent(last, if counts then n + 1 else n, j, lo, limit, window)
  {
  }

  /** In any history, cleanups included, on a clock that does not run back, a closed interval
      of k windows' length admits at most `Peak` of a key's requests. A limit below one counts
      as one. */
  lemma PeakBounds(now: int, h: seq<Event>, key: string, lo: int, k: nat, limit: int, window: int)
    requires InOrder(now, h) && window >= 0
    ensures Admitted(map[], h, key, lo, lo + k * window, limit, window) <= Peak(k, limit, window)
  {
    var last := Entry(1, if now < lo then now - 1 else lo - 1);
    FullWindows(k * window, window + 1, 0, Most(limit));
    Bounded(map[], now, h, key, lo, lo + k * window, k, Peak(k, limit, window), limit, window, last, 0, 0);
  }

  /** The rest of the fullest history: `left` more requests in the window that is open, then `m`
      full windows, the first at `next` and each as soon as the one before has expired. */
  lemma {:induction false} Fill(t: Table, now: int, key: string, last: Entry, left: nat, m: nat, next: int,
                                lo: int, hi: int, limit: int, window: nat) returns (h: seq<Event>)
    requires Shows(t, key, now, last) && last.count + left == Most(limit) && last.count >= 1
    requires left > 0 ==> lo <= now <= hi && now <= last.windowEnd
    requires m > 0 ==> now <= next && last.windowEnd < next && lo <= next && next + (m - 1) * (window + 1) <= hi
    ensures InOrder(now, h)
    ensures Admitted(t, h, key, lo, hi, limit, window) == left + Most(limit) * m
    decreases m, left
  {
    h := [];
    if left > 0 || m > 0 {
      var at := if left > 0 then now else next;
      var e := Request(key, at);
      var last' := LastAfter(last, e, key, limit, window);
      ShowsStep(t, key, now, last, e, limit, window);
      assert Live(t, key, at) == if at <= last.windowEnd then Some(last) else None;
      var rest;
      if left > 0 {
        rest := Fill(After(t, e, limit, window), at, key, last', left - 1, m, next, lo, hi, limit, window);
      } else {
        assert Most(limit) * m == Most(limit) * (m - 1) + Most(limit);
        assert (m - 1) * (window + 1) == (m - 2) * (window + 1) + window + 1;
        Scales(0, m - 1, window + 1);
        rest := Fill(After(t, e, limit, window), at, key, last', Most(limit) - 1, m - 1, next + window + 1,
                     lo, hi, limit, window);
      }
      h := [e] + rest;
      assert h[1..] == rest;
    }
  }

  /** A window that begins at `lo` and `m` more, all full. */
  lemma FromTheStart(key: string, lo: int, m: nat, hi: int, limit: int, window: nat) returns (h: seq<Event>)
    requires lo + m * (window + 1) <= hi
    ensures InOrder(lo, h)
    ensures Admitted(map[], h, key, lo, hi, limit, window) == Most(limit) * (m + 1)
  {
    h := Fill(map[], lo, key, Entry(Most(limit), lo - 1), 0, m + 1, lo, lo, hi, limit, window);
  }

  /** A window that one request begins a window's length before `lo`, and `m` more, all full. */
  lemma FromBefore(key: string, lo: int, m: nat, hi: int, limit: int, window: nat) returns (h: seq<Event>)
    requires window > 0 && lo <= hi && lo + m * (window + 1) <= hi + window
    ensures InOrder(lo - window, h)
    ensures Admitted(map[], h, key, lo, hi, limit, window) == Most(limit) * (m + 1) - 1
  {
    assert m * (window + 1) == (m - 1) * (window + 1) + window + 1;
    assert Most(limit) * (m + 1) == Most(limit) * m + Most(limit);
    var t := map[key := Entry(1, lo)];
    var rest := Fill(t, lo, key, Entry(1, lo), Most(limit) - 1, m, lo + 1, lo, hi, limit, window);
    h := [Request(key, lo - window)] + rest;
    assert h[1..] == rest;
    assert After(map[], h[0], limit, window) == t;
  }

  /** And `Peak` is reached: it is the most that such an interval admits, for every limit, every
      window and every number of windows. */
  lemma PeakReached(key: string, lo: int, k: nat, limit: int, window: nat) returns (now: int, h: seq<Event>)
    ensures InOrder(now, h)
    ensures Admitted(map[], h, key, lo, lo + k * window, limit, window) == Peak(k, limit, window)
  {
    var early, late := k * window / (window + 1), (k + 1) * window / (window + 1);
    assert (k + 1) * window == k * window + window;
    Fits(k * window, window + 1, early);
    Fits((k + 1) * window, window + 1, late);
    if Peak(k, limit, window) == Most(limit) * (early + 1) {
      now := lo;
      h := FromTheStart(key, lo, early, lo + k * window, limit, window);
    } else {
      now := lo - window;
      h := FromBefore(key, lo, late, lo + k * window, limit, window);
    }
  }

  /** Of one window or more, at most one limit a window and one limit besides, less one: exactly
      that where the window is as long as their number. */
  lemma PeakSimple(k: nat, limit: int, window: nat)
    requires k >= 1
    ensures Peak(k, limit, window) <= (k + 1) * Most(limit) - 1
    ensures Peak(k, limit, window) == (k + 1) * Most(limit) - 1 <==>
            k <= window || (Most(limit) == 1 && k <= window + 1)
  {
    var m := Most(limit);
    FitsFewer(k, window);
    FitsFewer(k + 1, window);
    Ordered(m, k * window / (window + 1) + 1, k);
    Ordered(m, (k + 1) * window / (window + 1) + 1, k + 1);
    Ordered(m, k, k + 1);
    assert m * (k + 1) == (k + 1) * m;
  }

  /** Fewer than k gaps fit into k windows, and only one less where the window is long. */
  lemma FitsFewer(k: nat, window: nat)
    requires k >= 1
    ensures 0 <= k * window / (window + 1) < k
    ensures k * window / (window + 1) == k - 1 <==> k <= window + 1
  {
    assert k * (window + 1) == k * window + k && (k - 1) * (window + 1) == k * window + k - (window + 1);
    Fits(k * window, window + 1, k);
    Fits(k * window, window + 1, k - 1);
  }

  /** In any history a closed interval of k windows' length, one or more, admits at most (k+1)
      limits of a key's requests, less one. */
  lemma WindowBound(now: int, h: seq<Event>, key: string, lo: int, k: nat, limit: int, window: int)
    requires InOrder(now, h) && window >= 0 && k >= 1
    ensures Admitted(map[], h, key, lo, lo + k * window, limit, window) <= (k + 1) * Most(limit) - 1
  {
    PeakBounds(now, h, key, lo, k, limit, window);
    PeakSimple(k, limit, window);
  }

  /** A history in which the interval admits so much. */
  ghost predicate MeetsBound(key: string, lo: int, k: nat, limit: int, window: nat) {
    exists now, h :: InOrder(now, h) &&
                     Admitted(map[], h, key, lo, lo + k * window, limit, window) == (k + 1) * Most(limit) - 1
  }

  /** Some history meets that bound exactly where the window is at least k long, or, with a limit
      of one, at least k - 1. */
  lemma BoundMetIff(key: string, lo: int, k: nat, limit: int, window: nat)
    requires k >= 1
    ensures MeetsBound(key, lo, k, limit, window) <==> k <= window || (Most(limit) == 1 && k <= window + 1)
  {
    PeakSimple(k, limit, window);
    var now, h := PeakReached(key, lo, k, limit, window);
    if MeetsBound(key, lo, k, limit, window) {
      var now', h' :| InOrder(now', h') &&
                      Admitted(map[], h', key, lo, lo + k * window, limit, window) == (k + 1) * Most(limit) - 1;
      PeakBounds(now', h', key, lo, k, limit, window);
    }
  }

  /** A limiter whose window is negative admits everything: each request finds its bucket
      already expired. */
  lemma {:induction false} NegativeWindowAdmitsAll(t: Table, now: int, h: seq<Event>, limit: int, window: int)
    requires window < 0 && InOrder(now, h)
    requires forall k :: k in t ==> t[k].windowEnd < now
    ensures forall i :: 0 <= i < |Answers(t, h, limit, window)| ==> Answers(t, h, limit, window)[i]
    decreases |h|
  {
    if h != [] {
      NegativeWindowAdmitsAll(After(t, h[0], limit, window), h[0].at, h[1..], limit, window);
    }
  }
}
