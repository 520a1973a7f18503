/** The per-tenant request limiter: fixed windows kept in one bucket per key (observability.go:154-206). */
module RateLimiter {

  /** windowStart 0 is the zero time: no window yet. */
  datatype Bucket = Bucket(windowStart: int, count: int, limit: int)

  const NO_BUCKET := Bucket(0, 0, 0)

  datatype Request = Request(key: string, now: int, overrideLimit: int)

  type Buckets = map<string, Bucket>

  datatype Settings = Settings(limit: int, window: int) {
    /** A positive override replaces the configured limit. */
    function Effective(overrideLimit: int): int {
      if overrideLimit > 0 then overrideLimit else limit
    }
  }

  function BucketOf(buckets: Buckets, key: string): Bucket {
    if key in buckets then buckets[key] else NO_BUCKET
  }

  /** The bucket a request is judged by: the stored one, or a new window. */
  function Current(b: Bucket, window: int, limit: int, now: int): Bucket {
    if b.windowStart == 0 || now - b.windowStart >= window || b.limit != limit then Bucket(now, 0, limit) else b
  }

  predicate Admits(s: Settings, buckets: Buckets, r: Request) {
    var limit := s.Effective(r.overrideLimit);
    Current(BucketOf(buckets, r.key), s.window, limit, r.now).count < limit
  }

  /** Only an admitted request changes its bucket. */
  function After(s: Settings, buckets: Buckets, r: Request): Buckets {
    var limit := s.Effective(r.overrideLimit);
    var b := Current(BucketOf(buckets, r.key), s.window, limit, r.now);
    if b.count < limit then buckets[r.key := Bucket(b.windowStart, b.count + 1, limit)] else buckets
  }

  /** The buckets after a sequence of requests. */
  function Run(s: Settings, requests: seq<Request>): Buckets {
    if requests == [] then map[] else After(s, Run(s, requests[..|requests| - 1]), requests[|requests| - 1])
  }

  /** The times at which requests of a key were admitted. */
  function Admitted(s: Settings, requests: seq<Request>, key: string): seq<int> {
    if requests == [] then []
    else
      var before, last := requests[..|requests| - 1], requests[|requests| - 1];
      Admitted(s, before, key) + if last.key == key && Admits(s, Run(s, before), last) then [last.now] else []
  }

  // ---------- Counting ----------

  function CountIn(times: seq<int>, from: int, to: int): nat {
    if times == [] then 0
    else CountIn(times[..|times| - 1], from, to) + if from <= times[|times| - 1] < to then 1 else 0
  }

  function CountFrom(times: seq<int>, from: int): nat {
    if times == [] then 0
    else CountFrom(times[..|times| - 1], from) + if from <= times[|times| - 1] then 1 else 0
  }

  lemma {:induction false} CountAppend(times: seq<int>, t: int, from: int, to: int)
    ensures CountIn(times + [t], from, to) == CountIn(times, from, to) + if from <= t < to then 1 else 0
    ensures CountFrom(times + [t], from) == CountFrom(times, from) + if from <= t then 1 else 0
  {
    assert (times + [t])[..|times|] == times;
  }

  lemma {:induction false} CountSplit(times: seq<int>, from: int, middle: int, to: int)
    ensures CountIn(times, from, to) <= CountIn(times, from, middle) + CountFrom(times, middle)
  {
    if times != [] {
      CountSplit(times[..|times| - 1], from, middle, to);
    }
  }

  lemma {:induction false} CountNarrower(times: seq<int>, from: int, to: int, wideFrom: int)
    requires wideFrom <= from
    ensures CountIn(times, from, to) <= CountIn(times, wideFrom, to) &&
              CountIn(times, from, to) <= CountFrom(times, wideFrom)
  {
    if times != [] {
      CountNarrower(times[..|times| - 1], from, to, wideFrom);
    }
  }

  lemma {:induction false} CountNone(times: seq<int>, from: int)
    requires forall t :: t in times ==> t < from
    ensures CountFrom(times, from) == 0
  {
    if times != [] {
      var rest := times[..|times| - 1];
      assert forall t :: t in rest ==> t in times;
      assert times[|times| - 1] in times;
      CountNone(rest, from);
    }
  }

  // ---------- One key with a constant limit ----------

  /** The bucket agrees with the admissions so far: its own window, and the window's length before it. */
  ghost predicate Fits(b: Bucket, times: seq<int>, window: int, limit: int) {
    if b.windowStart == 0 then times == []
    else
      && b.limit == limit && b.count <= limit
      && CountFrom(times, b.windowStart) == b.count
      && CountIn(times, b.windowStart - window, b.windowStart) <= limit
      && forall t :: t in times ==> t < b.windowStart + window
  }

  /** No interval of the window's length, wherever it starts, holds more than 2 * limit admissions. */
  ghost predicate Spread(times: seq<int>, window: int, limit: int) {
    forall a :: InWindow(times, a, window) <= 2 * limit
  }

  /** How many of the times lie in the half-open interval of the window's length starting at `from`. */
  function InWindow(times: seq<int>, from: int, window: int): nat {
    CountIn(times, from, from + window)
  }

  lemma {:induction false} OpenWindow(b: Bucket, times: seq<int>, window: int, limit: int, now: int)
    requires Fits(b, times, window, limit) && window > 0 && limit > 0 && now > 0
    requires (forall t :: t in times ==> t <= now) && b.windowStart <= now
    ensures var c := Current(b, window, limit, now);
            Fits(c, times, window, limit) && c.windowStart != 0 && c.windowStart <= now < c.windowStart + window
  {
    if b.windowStart == 0 {
      assert CountFrom(times, now) == 0 && CountIn(times, now - window, now) == 0;
    } else if now - b.windowStart >= window {
      CountNone(times, now);
      CountNarrower(times, now - window, now, b.windowStart);
    }
  }

  lemma {:induction false} AdmitSpreads(b: Bucket, times: seq<int>, window: int, limit: int, now: int)
    requires Fits(b, times, window, limit) && b.windowStart != 0 && b.count < limit && Spread(times, window, limit)
    requires b.windowStart <= now < b.windowStart + window
    ensures Spread(times + [now], window, limit)
  {
    forall a ensures InWindow(times + [now], a, window) <= 2 * limit {
      assert InWindow(times, a, window) <= 2 * limit;
      CountAppend(times, now, a, a + window);
      if a <= now < a + window {
        CountSplit(times, a, b.windowStart, a + window);
        CountNarrower(times, a, b.windowStart, b.windowStart - window);
      }
    }
  }

  // ---------- Every sequence of requests ----------

  ghost predicate Clocked(requests: seq<Request>) {
    forall i :: 0 <= i < |requests| ==>
      requests[i].now > 0 && forall k :: i < k < |requests| ==> requests[i].now <= requests[k].now
  }

  /** All requests of the key come with one limit: a positive override, or else the configured limit. */
  ghost predicate ConstantLimit(s: Settings, requests: seq<Request>, key: string, limit: int) {
    forall i :: 0 <= i < |requests| && requests[i].key == key ==>
      limit == if requests[i].overrideLimit > 0 then requests[i].overrideLimit else s.limit
  }

  ghost predicate Past(requests: seq<Request>, t: int) {
    exists i :: 0 <= i < |requests| && requests[i].now == t
  }

  /** Everything known about one key's bucket and admissions. */
  ghost predicate KeyInv(s: Settings, requests: seq<Request>, limit: int, b: Bucket, times: seq<int>) {
    && Fits(b, times, s.window, limit)
    && Spread(times, s.window, limit)
    && (b.windowStart != 0 ==> Past(requests, b.windowStart))
    && forall t :: t in times ==> Past(requests, t)
  }

  lemma {:induction false} PastGrows(requests: seq<Request>)
    requires requests != [] && Clocked(requests)
    ensures var before, last := requests[..|requests| - 1], requests[|requests| - 1];
            && Clocked(before) && Past(requests, last.now)
            && forall t :: Past(before, t) ==> Past(requests, t) && 0 < t <= last.now
  {
    var before, last := requests[..|requests| - 1], requests[|requests| - 1];
    assert requests[|requests| - 1].now == last.now;
    forall t | Past(before, t) ensures Past(requests, t) && 0 < t <= last.now {
      var i :| 0 <= i < |before| && before[i].now == t;
      assert requests[i].now == t;
    }
  }

  /** One more request of the key. */
  lemma {:induction false} KeyStep(s: Settings, before: seq<Request>, requests: seq<Request>, limit: int, b: Bucket,
                                   times: seq<int>, now: int)
    requires s.window > 0 && limit > 0 && now > 0 && KeyInv(s, before, limit, b, times)
    requires Past(requests, now) && forall t :: Past(before, t) ==> Past(requests, t) && t <= now
    ensures var c := Current(b, s.window, limit, now);
            if c.count < limit then KeyInv(s, requests, limit, Bucket(c.windowStart, c.count + 1, limit), times + [now])
            else c == b && KeyInv(s, requests, limit, b, times)
  {
    var c := Current(b, s.window, limit, now);
    OpenWindow(b, times, s.window, limit, now);
    if c.count < limit {
      AdmitSpreads(c, times, s.window, limit, now);
    }
  }

  lemma {:induction false} Limited(s: Settings, requests: seq<Request>, key: string, limit: int)
    requires s.window > 0 && limit > 0 && Clocked(requests) && ConstantLimit(s, requests, key, limit)
    ensures KeyInv(s, requests, limit, BucketOf(Run(s, requests), key), Admitted(s, requests, key))
  {
    if requests == [] {
      assert Run(s, requests) == map[] && Admitted(s, requests, key) == [];
      assert Spread([], s.window, limit);
    } else {
      var before, last := requests[..|requests| - 1], requests[|requests| - 1];
      PastGrows(requests);
      Limited(s, before, key, limit);
      var b, times := BucketOf(Run(s, before), key), Admitted(s, before, key);
      if last.key == key {
        KeyStep(s, before, requests, limit, b, times, last.now);
      } else {
        assert Admitted(s, requests, key) == times;
      }
      assert times + [] == times;
    }
  }

  /** At most `limit` requests in the current fixed window, at most twice as many in any interval of its length. */
  lemma {:induction false} RateBound(s: Settings, requests: seq<Request>, key: string, limit: int, from: int)
    requires s.limit > 0 && s.window > 0 && limit > 0
    requires Clocked(requests) && ConstantLimit(s, requests, key, limit)
    ensures var times, start := Admitted(s, requests, key), BucketOf(Run(s, requests), key).windowStart;
            && CountFrom(times, start) <= limit
            && InWindow(times, from, s.window) <= 2 * limit
  {
    Limited(s, requests, key, limit);
  }

  /** A request is refused only when its window already holds `limit` admissions. */
  lemma {:induction false} RefusedMeansFull(s: Settings, requests: seq<Request>, r: Request, limit: int)
    requires s.limit > 0 && s.window > 0
    requires Clocked(requests + [r]) && ConstantLimit(s, requests + [r], r.key, limit)
    requires !Admits(s, Run(s, requests), r)
    ensures CountFrom(Admitted(s, requests, r.key), r.now - s.window + 1) >= limit
  {
    assert (requests + [r])[|requests|] == r;
    assert forall i :: 0 <= i < |requests| ==> (requests + [r])[i] == requests[i];
    Limited(s, requests, r.key, limit);
    var b := BucketOf(Run(s, requests), r.key);
    FromEarlier(Admitted(s, requests, r.key), r.now - s.window + 1, b.windowStart);
  }

  lemma {:induction false} FromEarlier(times: seq<int>, early: int, late: int)
    requires early <= late
    ensures CountFrom(times, late) <= CountFrom(times, early)
  {
    if times != [] {
      FromEarlier(times[..|times| - 1], early, late);
    }
  }

  // ---------- When the limit changes ----------

  /** A request under another limit than the last one is admitted, whatever the window already holds. */
  lemma {:induction false} ChangedLimitAdmits(s: Settings, before: seq<Request>, r: Request)
    requires s.window > 0 && s.Effective(r.overrideLimit) > 0
    requires BucketOf(Run(s, before), r.key).limit != s.Effective(r.overrideLimit)
    ensures BucketOf(Run(s, before + [r]), r.key) == Bucket(r.now, 1, s.Effective(r.overrideLimit))
    ensures InWindow(Admitted(s, before + [r], r.key), r.now, s.window) ==
              InWindow(Admitted(s, before, r.key), r.now, s.window) + 1
  {
    var buckets, times := Run(s, before), Admitted(s, before, r.key);
    assert Admits(s, buckets, r);
    assert Admitted(s, before + [r], r.key) == times + [r.now];
    CountAppend(times, r.now, r.now, r.now + s.window);
  }

  /** Requests of one key at one time, each with an override and another one than the request before. */
  ghost predicate LimitsChange(requests: seq<Request>, key: string, now: int) {
    forall i :: 0 <= i < |requests| ==> ChangedAt(requests, key, now, i)
  }

  ghost predicate ChangedAt(requests: seq<Request>, key: string, now: int, i: nat)
    requires i < |requests|
  {
    && requests[i].key == key && requests[i].now == now && requests[i].overrideLimit > 0
    && (i > 0 ==> requests[i - 1].overrideLimit != requests[i].overrideLimit)
  }

  /** The limit of the last request. */
  function LastOverride(requests: seq<Request>): int {
    if requests == [] then 0 else requests[|requests| - 1].overrideLimit
  }

  lemma {:induction false} LimitsChangeInit(requests: seq<Request>, key: string, now: int)
    requires LimitsChange(requests, key, now) && requests != []
    ensures var n := |requests| - 1;
            && LimitsChange(requests[..n], key, now) && requests[n].key == key && requests[n].now == now
            && requests[n].overrideLimit > 0 && LastOverride(requests[..n]) != requests[n].overrideLimit
  {
    var n := |requests| - 1;
    assert ChangedAt(requests, key, now, n);
    forall i | 0 <= i < n ensures ChangedAt(requests[..n], key, now, i) {
      assert ChangedAt(requests, key, now, i);
    }
  }

  /** A changed limit opens a new window, so any number of such requests is admitted at one time. */
  lemma {:induction false} ChangingLimitAdmitsAll(s: Settings, requests: seq<Request>, key: string, now: int)
    requires s.window > 0 && LimitsChange(requests, key, now)
    ensures InWindow(Admitted(s, requests, key), now, s.window) == |requests|
    ensures BucketOf(Run(s, requests), key).limit == LastOverride(requests)
  {
    if requests != [] {
      var before, r := requests[..|requests| - 1], requests[|requests| - 1];
      LimitsChangeInit(requests, key, now);
      ChangingLimitAdmitsAll(s, before, key, now);
      ChangedLimitAdmits(s, before, r);
      assert requests == before + [r];
    }
  }

  // ---------- Whatever the limits are ----------

  /** The effective limit of the key's last request; 0 if there is none. */
  function LastLimit(s: Settings, requests: seq<Request>, key: string): int {
    if requests == [] then 0
    else if requests[|requests| - 1].key == key then s.Effective(requests[|requests| - 1].overrideLimit)
    else LastLimit(s, requests[..|requests| - 1], key)
  }

  /** How many of the key's requests in [from, to) came with another limit than the one before. */
  function ChangesIn(s: Settings, requests: seq<Request>, key: string, from: int, to: int): nat {
    if requests == [] then 0
    else
      var before, r := requests[..|requests| - 1], requests[|requests| - 1];
      var last := LastLimit(s, before, key);
      ChangesIn(s, before, key, from, to) +
      if r.key == key && from <= r.now < to && last != 0 && last != s.Effective(r.overrideLimit) then 1 else 0
  }

  /**
   * What is known of the interval [from, to) of the window's length while a bucket is in force: a
   * window that began before it holds all its admissions; the windows that began in it are at most
   * one more than the changes; after it nothing is added.
   */
  ghost predicate Within(b: Bucket, admitted: nat, changes: nat, from: int, to: int, most: int) {
    && 0 <= b.count <= most
    && (b.windowStart == 0 ==> admitted == 0 && changes == 0)
    && (0 < b.windowStart < from ==> admitted <= b.count && changes == 0)
    && (from <= b.windowStart < to && b.windowStart != 0 ==> admitted <= Share(changes + 1, most) + b.count)
    && (to <= b.windowStart && b.windowStart != 0 ==> admitted <= Share(changes + 2, most))
  }

  /** n times the largest limit. */
  function Share(n: nat, most: int): int {
    if n == 0 then 0 else Share(n - 1, most) + most
  }

  lemma {:induction false} ShareIsProduct(n: nat, most: int)
    ensures Share(n, most) == n * most
  {
    if n > 0 {
      ShareIsProduct(n - 1, most);
      assert n * most == (n - 1) * most + most;
    }
  }

  /** Opening a window, or not, for a request. */
  lemma {:induction false} OpenWithin(b: Bucket, admitted: nat, changes: nat, window: int, from: int, most: int,
                                      limit: int, now: int)
    requires Within(b, admitted, changes, from, from + window, most) && window > 0 && 0 < limit <= most && now > 0
    requires 0 <= b.windowStart <= now && (b.windowStart == 0 <==> b.limit == 0) && (now < from ==> admitted == 0)
    ensures var changed := b.limit != 0 && b.limit != limit && from <= now < from + window;
            var c := Current(b, window, limit, now);
            c.windowStart > 0 && c.windowStart <= now &&
            Within(c, admitted, changes + if changed then 1 else 0, from, from + window, most)
  {
    ShareAtLeast(changes, most);
    ShareAtLeast(changes + 1, most);
  }

  lemma {:induction false} AdmitWithin(b: Bucket, admitted: nat, changes: nat, from: int, to: int, most: int,
                                       limit: int, now: int)
    requires Within(b, admitted, changes, from, to, most) && 0 < b.windowStart <= now && b.count < limit <= most
    ensures Within(Bucket(b.windowStart, b.count + 1, limit), admitted + if from <= now < to then 1 else 0, changes,
                   from, to, most)
  {
  }

  ghost predicate LimitsUpTo(s: Settings, requests: seq<Request>, key: string, most: int) {
    forall i :: 0 <= i < |requests| && requests[i].key == key ==>
      0 < (if requests[i].overrideLimit > 0 then requests[i].overrideLimit else s.limit) <= most
  }

  /** One key's bucket, admissions, limit changes in [from, from + window) and last limit. */
  datatype Story = Story(b: Bucket, times: seq<int>, changes: nat, last: int)

  function NextStory(s: Settings, h: Story, r: Request, from: int): Story {
    var limit := s.Effective(r.overrideLimit);
    var changed := from <= r.now < from + s.window && h.last != 0 && h.last != limit;
    var admits := Current(h.b, s.window, limit, r.now).count < limit;
    Story(NextBucket(h.b, s.window, limit, r.now), if admits then h.times + [r.now] else h.times,
          if changed then h.changes + 1 else h.changes, limit)
  }

  function StoryOf(s: Settings, requests: seq<Request>, key: string, from: int): Story {
    if requests == [] then Story(NO_BUCKET, [], 0, 0)
    else
      var h, r := StoryOf(s, requests[..|requests| - 1], key, from), requests[|requests| - 1];
      if r.key == key then NextStory(s, h, r, from) else h
  }

  /** The story is that of the run. */
  lemma {:induction false} StoryIsRun(s: Settings, requests: seq<Request>, key: string, from: int)
    ensures StoryOf(s, requests, key, from) ==
            Story(BucketOf(Run(s, requests), key), Admitted(s, requests, key),
                  ChangesIn(s, requests, key, from, from + s.window), LastLimit(s, requests, key))
  {
    if requests != [] {
      StoryIsRun(s, requests[..|requests| - 1], key, from);
    }
  }

  ghost predicate Follows(s: Settings, requests: seq<Request>, h: Story, from: int, most: int) {
    && Within(h.b, InWindow(h.times, from, s.window), h.changes, from, from + s.window, most)
    && h.b.limit == h.last && (h.b.windowStart == 0 <==> h.b.limit == 0)
    && (h.b.windowStart != 0 ==> Past(requests, h.b.windowStart))
    && forall t :: t in h.times ==> Past(requests, t)
  }

  lemma {:induction false} AlwaysFollows(s: Settings, requests: seq<Request>, key: string, most: int, from: int)
    requires s.window > 0 && most > 0 && Clocked(requests) && LimitsUpTo(s, requests, key, most)
    ensures Follows(s, requests, StoryOf(s, requests, key, from), from, most)
  {
    if requests != [] {
      var before, r := requests[..|requests| - 1], requests[|requests| - 1];
      PastGrows(requests);
      AlwaysFollows(s, before, key, most, from);
      if r.key == key {
        StillFollows(s, before, requests, StoryOf(s, before, key, from), r, from, most);
      }
    }
  }

  lemma {:induction false} CountBefore(times: seq<int>, from: int, to: int)
    requires forall t :: t in times ==> t < from
    ensures CountIn(times, from, to) == 0
  {
    if times != [] {
      var rest := times[..|times| - 1];
      assert forall t :: t in rest ==> t in times;
      assert times[|times| - 1] in times;
      CountBefore(rest, from, to);
    }
  }

  /** One more request of the key. */
  lemma {:induction false} StillFollows(s: Settings, before: seq<Request>, requests: seq<Request>, h: Story,
                                        r: Request, from: int, most: int)
    requires s.window > 0 && 0 < s.Effective(r.overrideLimit) <= most && r.now > 0
    requires Follows(s, before, h, from, most) && Past(requests, r.now)
    requires forall t :: Past(before, t) ==> Past(requests, t) && 0 < t <= r.now
    ensures Follows(s, requests, NextStory(s, h, r, from), from, most)
  {
    if r.now < from {
      CountBefore(h.times, from, from + s.window);
    }
    CountAppend(h.times, r.now, from, from + s.window);
    StepWithin(h.b, InWindow(h.times, from, s.window), h.changes, s.window, from, most,
               s.Effective(r.overrideLimit), r.now);
  }

  /** The bucket after a request: the current window with one more admission, or as it was. */
  function NextBucket(b: Bucket, window: int, limit: int, now: int): Bucket {
    var c := Current(b, window, limit, now);
    if c.count < limit then Bucket(c.windowStart, c.count + 1, limit) else b
  }

  lemma {:induction false} StepWithin(b: Bucket, admitted: nat, changes: nat, window: int, from: int, most: int,
                                      limit: int, now: int)
    requires Within(b, admitted, changes, from, from + window, most) && window > 0 && 0 < limit <= most && now > 0
    requires 0 <= b.windowStart <= now && (b.windowStart == 0 <==> b.limit == 0) && (now < from ==> admitted == 0)
    ensures var changed := b.limit != 0 && b.limit != limit && from <= now < from + window;
            var admits := Current(b, window, limit, now).count < limit;
            var next := NextBucket(b, window, limit, now);
            && Within(next, admitted + (if admits && from <= now < from + window then 1 else 0),
                      changes + (if changed then 1 else 0), from, from + window, most)
            && next.limit == limit && next.windowStart in {b.windowStart, now} && next.windowStart != 0
  {
    var c := Current(b, window, limit, now);
    OpenWithin(b, admitted, changes, window, from, most, limit, now);
    if c.count < limit {
      var changed := b.limit != 0 && b.limit != limit && from <= now < from + window;
      AdmitWithin(c, admitted, changes + if changed then 1 else 0, from, from + window, most, limit, now);
    }
  }

  /**
   * Whatever the limits: an interval of the window's length holds at most as many admissions as two
   * more than the limit changes in it, times the largest limit.
   */
  lemma {:induction false} ChangingRateBound(s: Settings, requests: seq<Request>, key: string, most: int, from: int)
    requires s.window > 0 && most > 0 && Clocked(requests) && LimitsUpTo(s, requests, key, most)
    ensures InWindow(Admitted(s, requests, key), from, s.window) <=
            (ChangesIn(s, requests, key, from, from + s.window) + 2) * most
  {
    var changes := ChangesIn(s, requests, key, from, from + s.window);
    AlwaysFollows(s, requests, key, most, from);
    StoryIsRun(s, requests, key, from);
    ShareIsProduct(changes + 2, most);
    ShareAtLeast(changes, most);
  }

  lemma {:induction false} ShareAtLeast(n: nat, most: int)
    requires most > 0
    ensures Share(n + 2, most) == Share(n + 1, most) + most >= most
  {
    if n > 0 {
      ShareAtLeast(n - 1, most);
    }
  }

  // ---------- The limiter ----------

  class TenantRateLimiter {
    const settings: Settings
    var buckets: Buckets

    constructor (limit: int, window: int)
      requires limit > 0 && window > 0
      ensures settings == Settings(limit, window) && buckets == map[]
    {
      settings := Settings(limit, window);
      buckets := map[];
    }

    /** Advances the run by one request; a refused caller is told when its window ends. */
    method Allow(key: string, now: int, overrideLimit: int) returns (ok: bool, retryAfter: int)
      modifies this
      ensures buckets == After(settings, old(buckets), Request(key, now, overrideLimit))
      ensures ok <==> Admits(settings, old(buckets), Request(key, now, overrideLimit))
      ensures ok ==> retryAfter == 0
      ensures !ok && settings.window > 0 && settings.limit > 0 ==>
                retryAfter > 0 && now + retryAfter == BucketOf(old(buckets), key).windowStart + settings.window
      ensures !ok && settings.window > 0 && settings.limit > 0 ==>
                Admits(settings, buckets, Request(key, now + retryAfter, overrideLimit))
    {
      var effectiveLimit := settings.limit;
      if overrideLimit > 0 {
        effectiveLimit := overrideLimit;
      }
      var bucket := BucketOf(buckets, key);
      if bucket.windowStart == 0 || now - bucket.windowStart >= settings.window || bucket.limit != effectiveLimit {
        bucket := Bucket(now, 0, effectiveLimit);
      }
      if bucket.count >= effectiveLimit {
        retryAfter := settings.window - (now - bucket.windowStart);
        if retryAfter < 0 {
          retryAfter := 0;
        }
        return false, retryAfter;
      }
      bucket := Bucket(bucket.windowStart, bucket.count + 1, effectiveLimit);
      buckets := buckets[key := bucket];
      return true, 0;
    }
  }
}
