/** The REST rate-limit pacer: a sliding window of grants per key, plus a
    cooldown after the exchange reports a limit. Times are nanoseconds. */
module RatePacer {
  import opened Wrappers

  const COOLDOWN: nat := 2_000_000_000
  const SAFETY_MARGIN: nat := 50_000_000

  datatype Bucket = Bucket(key: string, limit: nat, window: nat)

  datatype PacerError = ZeroLimit(key: string)

  datatype PacerState = PacerState(cooldowns: map<string, nat>, requests: map<string, seq<nat>>)

  /** `Ok(None)` is a grant, `Ok(Some(d))` asks the caller to sleep for `d`. */
  type Verdict = Result<Option<nat>, PacerError>

  /** The duration since an earlier instant; zero when the clock reading is older. */
  function Elapsed(now: nat, earlier: nat): nat { if now >= earlier then now - earlier else 0 }

  function Pacing(bucket: Bucket): nat { bucket.window + SAFETY_MARGIN }

  function QueueOf(s: PacerState, key: string): seq<nat> {
    if key in s.requests then s.requests[key] else []
  }

  function DropExpired(queue: seq<nat>, now: nat, pacing: nat): (rest: seq<nat>)
    ensures |rest| <= |queue| && rest == queue[|queue| - |rest|..]
    ensures forall i | 0 <= i < |queue| - |rest| :: Elapsed(now, queue[i]) >= pacing
    ensures rest != [] ==> Elapsed(now, rest[0]) < pacing
  {
    if queue != [] && Elapsed(now, queue[0]) >= pacing then DropExpired(queue[1..], now, pacing) else queue
  }

  function Reserve(s: PacerState, bucket: Bucket, now: nat): (PacerState, Verdict) {
    if bucket.limit == 0 then (s, Err(ZeroLimit(bucket.key)))
    else if bucket.key in s.cooldowns && s.cooldowns[bucket.key] > now then
      (s, Ok(Some(s.cooldowns[bucket.key] - now)))
    else
      var recent := DropExpired(QueueOf(s, bucket.key), now, Pacing(bucket));
      var cooldowns := s.cooldowns - {bucket.key};
      if |recent| < bucket.limit then
        (PacerState(cooldowns, s.requests[bucket.key := recent + [now]]), Ok(None))
      else
        (PacerState(cooldowns, s.requests[bucket.key := recent]),
         Ok(Some(Elapsed(recent[0] + Pacing(bucket), now))))
  }

  function Limited(s: PacerState, key: string, now: nat): PacerState {
    s.(cooldowns := s.cooldowns[key := now + COOLDOWN])
  }

  class RateLimitPacer {
    var cooldowns: map<string, nat>
    var requests: map<string, seq<nat>>

    ghost function State(): PacerState
      reads this
    {
      PacerState(cooldowns, requests)
    }

    constructor ()
      ensures State() == PacerState(map[], map[])
    {
      cooldowns, requests := map[], map[];
    }

    method RecordRateLimitAt(bucket: Bucket, now: nat)
      modifies this
      ensures State() == Limited(old(State()), bucket.key, now)
    {
      cooldowns := cooldowns[bucket.key := now + COOLDOWN];
    }

    method ReserveOrWait(bucket: Bucket, now: nat) returns (verdict: Verdict)
      modifies this
      ensures (State(), verdict) == Reserve(old(State()), bucket, now)
    {
      if bucket.limit == 0 {
        return Err(ZeroLimit(bucket.key));
      }
      if bucket.key in cooldowns {
        var until := cooldowns[bucket.key];
        if until > now {
          return Ok(Some(until - now));
        }
      }
      cooldowns := cooldowns - {bucket.key};
      var pacing := Pacing(bucket);
      var queue := if bucket.key in requests then requests[bucket.key] else [];
      while queue != [] && Elapsed(now, queue[0]) >= pacing
        invariant DropExpired(queue, now, pacing) == DropExpired(QueueOf(old(State()), bucket.key), now, pacing)
        decreases |queue|
      {
        queue := queue[1..];
      }
      if |queue| < bucket.limit {
        requests := requests[bucket.key := queue + [now]];
        return Ok(None);
      }
      requests := requests[bucket.key := queue];
      verdict := Ok(Some(Elapsed(queue[0] + pacing, now)));
    }
  }

  // ---------- runs ----------

  datatype Rule = Rule(limit: nat, window: nat)

  /** One locked section of the pacer. */
  datatype Call = Ask(key: string, now: nat) | Report(key: string, now: nat)

  function BucketOf(rules: string -> Rule, key: string): Bucket {
    Bucket(key, rules(key).limit, rules(key).window)
  }

  function Perform(rules: string -> Rule, s: PacerState, call: Call): (PacerState, bool) {
    match call
    case Ask(key, now) =>
      var (next, verdict) := Reserve(s, BucketOf(rules, key), now);
      (next, verdict == Ok(None))
    case Report(key, now) => (Limited(s, key, now), false)
  }

  function After(rules: string -> Rule, calls: seq<Call>): PacerState {
    if calls == [] then PacerState(map[], map[])
    else Perform(rules, After(rules, calls[..|calls| - 1]), calls[|calls| - 1]).0
  }

  predicate GrantedAt(rules: string -> Rule, calls: seq<Call>, i: nat)
    requires i < |calls|
  {
    Perform(rules, After(rules, calls[..i]), calls[i]).1
  }

  /** The instants granted to a key, in the order the lock was taken. */
  function Grants(rules: string -> Rule, calls: seq<Call>, key: string): seq<nat> {
    if calls == [] then []
    else
      var front, last := calls[..|calls| - 1], calls[|calls| - 1];
      Grants(rules, front, key)
      + (if last.key == key && Perform(rules, After(rules, front), last).1 then [last.now] else [])
  }

  /** Instants are read before the lock is taken, so a later section may carry
      a reading that is older by at most `skew`. */
  ghost predicate Steady(calls: seq<Call>, skew: nat) {
    forall i, j | 0 <= i < j < |calls| :: calls[i].now <= calls[j].now + skew
  }

  /** The largest reading any section carried. */
  function Latest(calls: seq<Call>): nat {
    if calls == [] then 0
    else
      var before, now := Latest(calls[..|calls| - 1]), calls[|calls| - 1].now;
      if now >= before then now else before
  }

  ghost predicate Spaced(grants: seq<nat>, limit: nat, distance: int) {
    forall i, j | 0 <= i < |grants| && 0 <= j < |grants| && j == i + limit :: grants[j] >= grants[i] + distance
  }

  /** `queue` is the newest part of `grants`, and everything older was reached
      by some section at least one pacing window later. */
  ghost predicate NewestPart(queue: seq<nat>, grants: seq<nat>, calls: seq<Call>, pacing: nat) {
    && |queue| <= |grants| && queue == grants[|grants| - |queue|..]
    && forall i | 0 <= i < |grants| - |queue| :: Latest(calls) >= grants[i] + pacing
  }

  ghost predicate QueueInvariant(rules: string -> Rule, calls: seq<Call>, key: string) {
    && NewestPart(QueueOf(After(rules, calls), key), Grants(rules, calls, key), calls, Pacing(BucketOf(rules, key)))
    && |QueueOf(After(rules, calls), key)| <= rules(key).limit
  }

  lemma OtherKeysUntouched(rules: string -> Rule, s: PacerState, call: Call, key: string)
    requires key != call.key
    ensures var t := Perform(rules, s, call).0;
            && QueueOf(t, key) == QueueOf(s, key)
            && (key in t.cooldowns <==> key in s.cooldowns)
            && (key in s.cooldowns ==> t.cooldowns[key] == s.cooldowns[key])
  {
  }

  lemma LatestExtends(calls: seq<Call>, call: Call)
    ensures Latest(calls + [call]) == if call.now >= Latest(calls) then call.now else Latest(calls)
  {
    assert (calls + [call])[..|calls + [call]| - 1] == calls;
  }

  /** What one section does to the queue of its key: it drops expired grants
      and, when granted, stores its own instant. */
  ghost predicate QueueMoves(before: seq<nat>, rest: seq<nat>, after: seq<nat>, now: nat, pacing: nat, granted: bool) {
    && |rest| <= |before| && rest == before[|before| - |rest|..]
    && (forall i | 0 <= i < |before| - |rest| :: now >= before[i] + pacing)
    && after == rest + (if granted then [now] else [])
  }

  lemma ReserveMoves(s: PacerState, bucket: Bucket, now: nat) returns (rest: seq<nat>)
    ensures QueueMoves(QueueOf(s, bucket.key), rest, QueueOf(Reserve(s, bucket, now).0, bucket.key), now,
                       Pacing(bucket), Reserve(s, bucket, now).1 == Ok(None))
    ensures |QueueOf(s, bucket.key)| <= bucket.limit ==> |QueueOf(Reserve(s, bucket, now).0, bucket.key)| <= bucket.limit
  {
    var before := QueueOf(s, bucket.key);
    if Reserve(s, bucket, now).0 == s {
      rest := before;
      assert before == before + [];
    } else {
      rest := DropExpired(before, now, Pacing(bucket));
      assert rest == rest + [];
    }
  }

  lemma QueueEffect(rules: string -> Rule, s: PacerState, call: Call) returns (rest: seq<nat>)
    requires |QueueOf(s, call.key)| <= rules(call.key).limit
    ensures QueueMoves(QueueOf(s, call.key), rest, QueueOf(Perform(rules, s, call).0, call.key), call.now,
                       Pacing(BucketOf(rules, call.key)), Perform(rules, s, call).1)
    ensures |QueueOf(Perform(rules, s, call).0, call.key)| <= rules(call.key).limit
  {
    if call.Ask? {
      rest := ReserveMoves(s, BucketOf(rules, call.key), call.now);
    } else {
      rest := QueueOf(s, call.key);
      assert rest == rest + [];
    }
  }

  lemma NewestPartStep(
    before: seq<nat>, grants: seq<nat>, calls: seq<Call>, call: Call, pacing: nat, rest: seq<nat>, stored: seq<nat>)
    requires NewestPart(before, grants, calls, pacing)
    requires |rest| <= |before| && rest == before[|before| - |rest|..]
    requires forall i | 0 <= i < |before| - |rest| :: call.now >= before[i] + pacing
    ensures NewestPart(rest + stored, grants + stored, calls + [call], pacing)
  {
    LatestExtends(calls, call);
    forall i | 0 <= i < |grants| - |rest| ensures Latest(calls + [call]) >= grants[i] + pacing {
      if i >= |grants| - |before| {
        assert grants[i] == before[i - (|grants| - |before|)];
      }
    }
  }

  lemma OneMoreCall(rules: string -> Rule, front: seq<Call>, call: Call, key: string)
    ensures After(rules, front + [call]) == Perform(rules, After(rules, front), call).0
    ensures Grants(rules, front + [call], key)
         == Grants(rules, front, key)
            + (if call.key == key && Perform(rules, After(rules, front), call).1 then [call.now] else [])
  {
    assert (front + [call])[..|front + [call]| - 1] == front;
  }

  lemma OwnCallHolds(rules: string -> Rule, front: seq<Call>, call: Call)
    requires QueueInvariant(rules, front, call.key)
    ensures QueueInvariant(rules, front + [call], call.key)
  {
    var s := After(rules, front);
    OneMoreCall(rules, front, call, call.key);
    var rest := QueueEffect(rules, s, call);
    NewestPartStep(QueueOf(s, call.key), Grants(rules, front, call.key), front, call,
                   Pacing(BucketOf(rules, call.key)), rest, if Perform(rules, s, call).1 then [call.now] else []);
  }

  lemma OtherCallHolds(rules: string -> Rule, front: seq<Call>, call: Call, key: string)
    requires QueueInvariant(rules, front, key) && call.key != key
    ensures QueueInvariant(rules, front + [call], key)
  {
    var s := After(rules, front);
    var queue, grants := QueueOf(s, key), Grants(rules, front, key);
    OneMoreCall(rules, front, call, key);
    OtherKeysUntouched(rules, s, call, key);
    NewestPartStep(queue, grants, front, call, Pacing(BucketOf(rules, key)), queue, []);
    assert queue + [] == queue && grants + [] == grants;
  }

  lemma CallHolds(rules: string -> Rule, front: seq<Call>, call: Call, key: string, calls: seq<Call>)
    requires QueueInvariant(rules, front, key) && calls == front + [call]
    ensures QueueInvariant(rules, calls, key)
  {
    if call.key == key {
      OwnCallHolds(rules, front, call);
    } else {
      OtherCallHolds(rules, front, call, key);
    }
  }

  lemma {:induction false} QueueHolds(rules: string -> Rule, calls: seq<Call>, key: string)
    ensures QueueInvariant(rules, calls, key)
  {
    if calls != [] {
      QueueHolds(rules, calls[..|calls| - 1], key);
      CallHolds(rules, calls[..|calls| - 1], calls[|calls| - 1], key, calls);
    }
  }

  lemma {:induction false} LatestAtMost(calls: seq<Call>, bound: nat)
    requires forall c | c in calls :: c.now <= bound
    ensures Latest(calls) <= bound
  {
    if calls != [] {
      assert calls[|calls| - 1] in calls;
      LatestAtMost(calls[..|calls| - 1], bound);
    }
  }

  lemma SteadyReach(calls: seq<Call>, call: Call, skew: nat)
    requires Steady(calls + [call], skew)
    ensures Latest(calls + [call]) <= call.now + skew
  {
    var all := calls + [call];
    forall c | c in all ensures c.now <= call.now + skew {
      var i :| 0 <= i < |all| && all[i] == c;
      assert all[|calls|] == call;
    }
    LatestAtMost(all, call.now + skew);
  }

  lemma SteadyPrefix(calls: seq<Call>, n: nat, skew: nat)
    requires Steady(calls, skew) && n <= |calls|
    ensures Steady(calls[..n], skew)
  {
  }

  lemma CallKeepsSpacing(rules: string -> Rule, front: seq<Call>, call: Call, key: string, skew: nat, calls: seq<Call>)
    requires calls == front + [call] && Steady(calls, skew)
    requires Spaced(Grants(rules, front, key), rules(key).limit, rules(key).window + SAFETY_MARGIN - skew)
    ensures Spaced(Grants(rules, calls, key), rules(key).limit, rules(key).window + SAFETY_MARGIN - skew)
  {
    OneMoreCall(rules, front, call, key);
    var grants, limit := Grants(rules, front, key), rules(key).limit;
    if call.key == key && Perform(rules, After(rules, front), call).1 {
      if |grants| >= limit {
        NewGrantIsFar(rules, front, call, |grants| - limit, skew);
      }
      SpacedGrows(grants, call.now, limit, rules(key).window + SAFETY_MARGIN - skew);
    } else {
      assert grants + [] == grants;
    }
  }

  /** Any `limit` + 1 consecutive grants of a key span at least the window plus
      the safety margin, less the clock skew. */
  lemma {:induction false} GrantsAreSpaced(rules: string -> Rule, calls: seq<Call>, key: string, skew: nat)
    requires Steady(calls, skew)
    ensures Spaced(Grants(rules, calls, key), rules(key).limit, rules(key).window + SAFETY_MARGIN - skew)
  {
    if calls != [] {
      var front, call := calls[..|calls| - 1], calls[|calls| - 1];
      SteadyPrefix(calls, |front|, skew);
      GrantsAreSpaced(rules, front, key, skew);
      CallKeepsSpacing(rules, front, call, key, skew, calls);
    }
  }

  lemma SpacedGrows(grants: seq<nat>, now: nat, limit: nat, distance: int)
    requires limit > 0 && Spaced(grants, limit, distance)
    requires |grants| >= limit ==> now >= grants[|grants| - limit] + distance
    ensures Spaced(grants + [now], limit, distance)
  {
  }

  lemma NewGrantIsFar(rules: string -> Rule, front: seq<Call>, call: Call, i: nat, skew: nat)
    requires Steady(front + [call], skew)
    requires Perform(rules, After(rules, front), call).1
    requires i + rules(call.key).limit == |Grants(rules, front, call.key)|
    ensures call.now + skew >= Grants(rules, front, call.key)[i] + rules(call.key).window + SAFETY_MARGIN
  {
    var calls, key := front + [call], call.key;
    assert calls[..|calls| - 1] == front;
    QueueHolds(rules, calls, key);
    var grants, queue := Grants(rules, calls, key), QueueOf(After(rules, calls), key);
    assert |queue| <= rules(key).limit;
    assert i < |grants| - |queue|;
    assert grants[i] == Grants(rules, front, key)[i];
    SteadyReach(front, call, skew);
  }

  /** Clock skew up to the 50 ms margin never breaks the exchange's window. */
  lemma MarginAbsorbsSkew(rules: string -> Rule, calls: seq<Call>, key: string, skew: nat)
    requires Steady(calls, skew) && skew <= SAFETY_MARGIN
    ensures Spaced(Grants(rules, calls, key), rules(key).limit, rules(key).window)
  {
    GrantsAreSpaced(rules, calls, key, skew);
    var grants, limit := Grants(rules, calls, key), rules(key).limit;
    assert forall i, j | 0 <= i < |grants| && 0 <= j < |grants| && j == i + limit ::
      grants[j] >= grants[i] + (rules(key).window + SAFETY_MARGIN - skew);
  }

  // ---------- cooldown ----------

  /** A recorded limit is still pending, or some later section outlived it. */
  ghost predicate CooldownPending(rules: string -> Rule, calls: seq<Call>, key: string, reported: nat, skew: nat) {
    var s := After(rules, calls);
    || (key in s.cooldowns && s.cooldowns[key] + skew >= reported + COOLDOWN)
    || Latest(calls) + skew >= reported + COOLDOWN
  }

  /** A stored cooldown is only replaced by a later report or removed once passed. */
  lemma CooldownEffect(rules: string -> Rule, s: PacerState, call: Call, key: string)
    requires key in s.cooldowns
    ensures var t := Perform(rules, s, call).0;
            || call.now >= s.cooldowns[key]
            || (key in t.cooldowns
                && t.cooldowns[key] == if call == Report(key, call.now) then call.now + COOLDOWN else s.cooldowns[key])
  {
  }

  lemma {:induction false} CooldownHolds(rules: string -> Rule, calls: seq<Call>, i: nat, skew: nat)
    requires Steady(calls, skew) && i < |calls| && calls[i].Report?
    ensures CooldownPending(rules, calls, calls[i].key, calls[i].now, skew)
    decreases |calls|
  {
    var front, call := calls[..|calls| - 1], calls[|calls| - 1];
    assert calls == front + [call];
    var key, reported := calls[i].key, calls[i].now;
    if i < |front| {
      SteadyPrefix(calls, |front|, skew);
      assert front[i] == calls[i];
      CooldownHolds(rules, front, i, skew);
      LatestExtends(front, call);
      if key in After(rules, front).cooldowns {
        CooldownEffect(rules, After(rules, front), call, key);
      }
    }
  }

  /** No grant on a key within two seconds of a recorded limit on it (each of
      the two readings involved may lag by the skew). */
  lemma NoGrantDuringCooldown(rules: string -> Rule, calls: seq<Call>, i: nat, j: nat, skew: nat)
    requires Steady(calls, skew) && i < j < |calls|
    requires calls[i].Report? && calls[j].key == calls[i].key && GrantedAt(rules, calls, j)
    ensures calls[j].now + 2 * skew >= calls[i].now + COOLDOWN
  {
    SteadyPrefix(calls, j, skew);
    SteadyPrefix(calls, j + 1, skew);
    CooldownHolds(rules, calls[..j], i, skew);
    assert calls[..j] + [calls[j]] == calls[..j + 1];
    GrantOutlivesCooldown(rules, calls[..j], calls[j], calls[i].now, skew);
  }

  lemma GrantOutlivesCooldown(rules: string -> Rule, front: seq<Call>, call: Call, reported: nat, skew: nat)
    requires Steady(front + [call], skew) && CooldownPending(rules, front, call.key, reported, skew)
    requires Perform(rules, After(rules, front), call).1
    ensures call.now + 2 * skew >= reported + COOLDOWN
  {
    LatestExtends(front, call);
    SteadyReach(front, call, skew);
  }

  // ---------- progress ----------

  predicate SameForKey(s: PacerState, t: PacerState, key: string) {
    && QueueOf(s, key) == QueueOf(t, key)
    && (key in s.cooldowns <==> key in t.cooldowns)
    && (key in s.cooldowns ==> s.cooldowns[key] == t.cooldowns[key])
  }

  lemma WaitsArePositive(s: PacerState, bucket: Bucket, now: nat)
    ensures var verdict := Reserve(s, bucket, now).1;
            verdict.Ok? && verdict.value.Some? ==> verdict.value.value > 0
  {
  }

  /** A refused request without a cooldown leaves a full queue of unexpired
      grants, and asks to wait until the oldest one expires. */
  lemma RefusedByWindow(s: PacerState, bucket: Bucket, now: nat)
    requires bucket.limit > 0 && |QueueOf(s, bucket.key)| <= bucket.limit
    requires bucket.key !in s.cooldowns || s.cooldowns[bucket.key] <= now
    requires Reserve(s, bucket, now).1.value.Some?
    ensures var (t, verdict) := Reserve(s, bucket, now);
            && bucket.key !in t.cooldowns
            && |QueueOf(t, bucket.key)| == bucket.limit
            && QueueOf(t, bucket.key)[0] + Pacing(bucket) == now + verdict.value.value
  {
  }

  lemma GrantedOnceExpired(t: PacerState, bucket: Bucket, now: nat)
    requires bucket.limit > 0 && bucket.key !in t.cooldowns
    requires |QueueOf(t, bucket.key)| == bucket.limit && now >= QueueOf(t, bucket.key)[0] + Pacing(bucket)
    ensures Reserve(t, bucket, now).1 == Ok(None)
  {
    var queue := QueueOf(t, bucket.key);
    assert |DropExpired(queue, now, Pacing(bucket))| < |queue|;
  }

  /** Once no cooldown is stored, one full sleep is enough. */
  lemma GrantedAfterWindow(s: PacerState, t: PacerState, bucket: Bucket, first: nat, second: nat)
    requires bucket.limit > 0 && |QueueOf(s, bucket.key)| <= bucket.limit
    requires bucket.key !in s.cooldowns || s.cooldowns[bucket.key] <= first
    requires Reserve(s, bucket, first).1.value.Some?
    requires SameForKey(Reserve(s, bucket, first).0, t, bucket.key)
    requires second >= first + Reserve(s, bucket, first).1.value.value
    ensures Reserve(t, bucket, second).1 == Ok(None)
  {
    RefusedByWindow(s, bucket, first);
    GrantedOnceExpired(t, bucket, second);
  }

  /** With nothing else happening on the key, the wait loop is granted after at
      most two sleeps: one for the cooldown, one for the window. */
  lemma GrantedWithinTwoSleeps(
    s: PacerState, t: PacerState, u: PacerState, bucket: Bucket, first: nat, second: nat, third: nat)
    requires bucket.limit > 0 && |QueueOf(s, bucket.key)| <= bucket.limit
    requires Reserve(s, bucket, first).1.value.Some?
    requires SameForKey(Reserve(s, bucket, first).0, t, bucket.key)
    requires second >= first + Reserve(s, bucket, first).1.value.value
    requires Reserve(t, bucket, second).1.value.Some?
    requires SameForKey(Reserve(t, bucket, second).0, u, bucket.key)
    requires third >= second + Reserve(t, bucket, second).1.value.value
    ensures Reserve(u, bucket, third).1 == Ok(None)
    ensures bucket.key in s.cooldowns && s.cooldowns[bucket.key] > first
  {
    if bucket.key !in s.cooldowns || s.cooldowns[bucket.key] <= first {
      GrantedAfterWindow(s, t, bucket, first, second);
    } else {
      GrantedAfterWindow(t, u, bucket, second, third);
    }
  }

  // ---------- exactly when, and exactly how long ----------

  ghost predicate CoolingDown(s: PacerState, key: string, now: nat) {
    key in s.cooldowns && s.cooldowns[key] > now
  }

  /** Fewer than `limit` grants are younger than the window plus 50 ms. */
  ghost predicate HasRoom(queue: seq<nat>, bucket: Bucket, now: nat) {
    forall i | 0 <= i <= |queue| - bucket.limit && i < |queue| :: now >= queue[i] + bucket.window + 50_000_000
  }

  lemma RoomIsDropped(queue: seq<nat>, bucket: Bucket, now: nat)
    requires bucket.limit > 0
    ensures |DropExpired(queue, now, Pacing(bucket))| < bucket.limit <==> HasRoom(queue, bucket, now)
  {
    var rest := DropExpired(queue, now, Pacing(bucket));
    var dropped := |queue| - |rest|;
    assert rest != [] ==> rest[0] == queue[dropped];
  }

  /** A request is granted exactly when the limit is positive, no cooldown runs and
      the window has room; only a zero limit is an error. */
  lemma GrantedIff(s: PacerState, bucket: Bucket, now: nat)
    ensures Reserve(s, bucket, now).1.Err? <==> bucket.limit == 0
    ensures Reserve(s, bucket, now).1 == Ok(None) <==>
              bucket.limit > 0 && !CoolingDown(s, bucket.key, now) && HasRoom(QueueOf(s, bucket.key), bucket, now)
  {
    if bucket.limit > 0 {
      RoomIsDropped(QueueOf(s, bucket.key), bucket, now);
    }
  }

  /** A wait is as long as needed and no longer: until the running cooldown ends, or
      until the oldest grant in the way leaves the window. Asking again earlier is
      refused; after the window's wait it is granted. */
  lemma WaitIsExact(s: PacerState, bucket: Bucket, now: nat, d: nat)
    requires Reserve(s, bucket, now).1 == Ok(Some(d)) && |QueueOf(s, bucket.key)| <= bucket.limit
    ensures var next := Reserve(s, bucket, now).0;
            && (CoolingDown(s, bucket.key, now) ==> s.cooldowns[bucket.key] == now + d && next == s)
            && (!CoolingDown(s, bucket.key, now) ==>
                  && |QueueOf(next, bucket.key)| == bucket.limit
                  && QueueOf(next, bucket.key)[0] + bucket.window + 50_000_000 == now + d
                  && Reserve(next, bucket, now + d).1 == Ok(None))
            && forall t: nat | now <= t < now + d :: Reserve(next, bucket, t).1 != Ok(None)
  {
    var next := Reserve(s, bucket, now).0;
    if !CoolingDown(s, bucket.key, now) {
      RefusedByWindow(s, bucket, now);
      GrantedOnceExpired(next, bucket, now + d);
    }
    forall t: nat | now <= t < now + d ensures Reserve(next, bucket, t).1 != Ok(None) {
      GrantedIff(next, bucket, t);
    }
  }

  /** A report sets the key's cooldown to end two seconds later and nothing else. */
  lemma ReportCoolsDown(s: PacerState, key: string, now: nat, other: string)
    ensures Limited(s, key, now).requests == s.requests
    ensures key in Limited(s, key, now).cooldowns && Limited(s, key, now).cooldowns[key] == now + 2_000_000_000
    ensures other != key ==>
              (other in Limited(s, key, now).cooldowns <==> other in s.cooldowns)
              && (other in s.cooldowns ==> Limited(s, key, now).cooldowns[other] == s.cooldowns[other])
  {
  }
}
