// The sliding-window limiter that forgets: src/adapters/access/in-memory-rate-limiter.ts.
module RateLimiter {
  import opened Common

  datatype Config = Config(limit: int, windowMs: int, maxTrackedKeys: int)

  /** What the limiter keeps: per key, the times it still remembers. */
  type Attempts = map<string, seq<int>>

  /** One granted call. */
  datatype Grant = Grant(key: string, at: int)

  datatype Call = Call(key: string, now: int)

  function Recent(times: seq<int>, oldestAllowed: int): seq<int> {
    if times == [] then []
    else if Last(times) > oldestAllowed then Recent(Init(times), oldestAllowed) + [Last(times)]
    else Recent(Init(times), oldestAllowed)
  }

  function Known(attempts: Attempts, key: string): seq<int> {
    if key in attempts then attempts[key] else []
  }

  /** The entries a sweep leaves: those with a time that is not stale. */
  function Swept(attempts: Attempts, oldestAllowed: int): Attempts {
    map key | key in attempts && Recent(attempts[key], oldestAllowed) != [] :: attempts[key]
  }

  /** One call: what is remembered afterwards, and whether it was granted. */
  function Consume(c: Config, attempts: Attempts, call: Call): (Attempts, bool) {
    var oldestAllowed := call.now - c.windowMs;
    var swept :=
      if call.key in attempts || |attempts| < c.maxTrackedKeys then attempts else Swept(attempts, oldestAllowed);
    if call.key !in attempts && |swept| >= c.maxTrackedKeys then (swept, false)
    else
      var recent := Recent(Known(attempts, call.key), oldestAllowed);
      if |recent| >= c.limit then (swept[call.key := recent], false)
      else (swept[call.key := recent + [call.now]], true)
  }

  class InMemoryRateLimiter {
    const config: Config
    var attempts: Attempts

    constructor (config: Config)
      ensures this.config == config && attempts == map[]
    {
      this.config := config;
      attempts := map[];
    }

    method TryConsume(key: string, now: int) returns (granted: bool)
      modifies this
      ensures (attempts, granted) == Consume(config, old(attempts), Call(key, now))
    {
      var oldestAllowed := now - config.windowMs;
      var known := key in attempts;
      if !known {
        var room := HasRoomForNewKey(oldestAllowed);
        if !room {
          return false;
        }
      }
      var recent: seq<int> := [];
      var times := Known(attempts, key);
      for i := 0 to |times|
        invariant recent == Recent(times[..i], oldestAllowed)
      {
        assert Init(times[..i + 1]) == times[..i];
        if times[i] > oldestAllowed {
          recent := recent + [times[i]];
        }
      }
      assert times[..|times|] == times;
      if |recent| >= config.limit {
        attempts := attempts[key := recent];
        return false;
      }
      recent := recent + [now];
      attempts := attempts[key := recent];
      granted := true;
    }

    method HasRoomForNewKey(oldestAllowed: int) returns (room: bool)
      modifies this
      ensures attempts == if |old(attempts)| < config.maxTrackedKeys then old(attempts)
                          else Swept(old(attempts), oldestAllowed)
      ensures room == (|attempts| < config.maxTrackedKeys)
    {
      if |attempts| < config.maxTrackedKeys {
        return true;
      }
      SweepStale(oldestAllowed);
      room := |attempts| < config.maxTrackedKeys;
    }

    method SweepStale(oldestAllowed: int)
      modifies this
      ensures attempts == Swept(old(attempts), oldestAllowed)
    {
      var pending := attempts.Keys;
      while pending != {}
        invariant pending <= attempts.Keys <= old(attempts).Keys
        invariant forall key :: key in attempts ==> attempts[key] == old(attempts)[key]
        invariant forall key :: key in old(attempts) && key !in pending ==>
                    (key in attempts <==> Recent(old(attempts)[key], oldestAllowed) != [])
        decreases pending
      {
        var key :| key in pending;
        pending := pending - {key};
        var stale := AllStale(attempts[key], oldestAllowed);
        if stale {
          attempts := attempts - {key};
        }
      }
    }

    method AllStale(times: seq<int>, oldestAllowed: int) returns (stale: bool)
      ensures stale <==> Recent(times, oldestAllowed) == []
    {
      for i := 0 to |times|
        invariant Recent(times[..i], oldestAllowed) == []
      {
        assert Init(times[..i + 1]) == times[..i];
        if times[i] > oldestAllowed {
          RecentHolds(times, oldestAllowed, times[i]);
          return false;
        }
      }
      assert times[..|times|] == times;
      stale := true;
    }
  }

  lemma {:induction false} RecentHolds(times: seq<int>, oldestAllowed: int, at: int)
    ensures at in Recent(times, oldestAllowed) <==> at in times && at > oldestAllowed
  {
    if times != [] {
      RecentHolds(Init(times), oldestAllowed, at);
      assert times == Init(times) + [Last(times)];
    }
  }

  // ---------------------------------------------------------------- the full history

  /** When a key was granted. */
  function Times(history: seq<Grant>, key: string): seq<int> {
    if history == [] then []
    else if Last(history).key == key then Times(Init(history), key) + [Last(history).at]
    else Times(Init(history), key)
  }

  lemma {:induction false} TimesAreGrants(history: seq<Grant>, key: string, at: int)
    ensures at in Times(history, key) <==> Grant(key, at) in history
  {
    if history != [] {
      TimesAreGrants(Init(history), key, at);
      assert history == Init(history) + [Last(history)];
    }
  }

  /** How many of a key's grants are still live. */
  function LiveGrants(history: seq<Grant>, key: string, oldestAllowed: int): nat {
    |Recent(Times(history, key), oldestAllowed)|
  }

  /** The keys that hold a live grant. */
  function LiveKeys(history: seq<Grant>, oldestAllowed: int): set<string> {
    set g | g in history && g.at > oldestAllowed :: g.key
  }

  /** The decision a limiter that forgets nothing would make. */
  predicate Allowed(c: Config, history: seq<Grant>, call: Call) {
    var oldestAllowed := call.now - c.windowMs;
    && LiveGrants(history, call.key, oldestAllowed) < c.limit
    && |LiveKeys(history, oldestAllowed) - {call.key}| < c.maxTrackedKeys
  }

  /** A run of calls: what is remembered, what was granted, and each answer. */
  datatype State = State(attempts: Attempts, history: seq<Grant>, answers: seq<bool>)

  function Run(c: Config, calls: seq<Call>): State {
    if calls == [] then State(map[], [], [])
    else
      var s := Run(c, Init(calls));
      var call := Last(calls);
      var (attempts, granted) := Consume(c, s.attempts, call);
      State(attempts, if granted then s.history + [Grant(call.key, call.now)] else s.history, s.answers + [granted])
  }

  predicate Monotone(calls: seq<Call>) {
    forall i, j :: 0 <= i < j < |calls| ==> calls[i].now <= calls[j].now
  }

  // ---------------------------------------------------------------- the invariant

  /** What is remembered agrees with the history about everything not stale at `now`, and stays in bounds. */
  ghost predicate Agrees(c: Config, attempts: Attempts, history: seq<Grant>, now: int) {
    && (forall key :: Recent(Known(attempts, key), now - c.windowMs) == Recent(Times(history, key), now - c.windowMs))
    && (forall g :: g in history ==> g.at <= now)
    && (|attempts| == 0 || |attempts| <= c.maxTrackedKeys)
    && (forall key :: key in attempts ==> attempts[key] == [] || |attempts[key]| <= c.limit)
  }

  lemma {:induction false} RecentTwice(times: seq<int>, older: int, newer: int)
    requires older <= newer
    ensures Recent(Recent(times, older), newer) == Recent(times, newer)
  {
    if times != [] {
      RecentTwice(Init(times), older, newer);
      if Last(times) > older {
        assert Init(Recent(times, older)) == Recent(Init(times), older);
      }
    }
  }

  /** Agreement survives the clock moving on. */
  lemma AgreesLater(c: Config, attempts: Attempts, history: seq<Grant>, now: int, later: int)
    requires Agrees(c, attempts, history, now) && now <= later
    ensures Agrees(c, attempts, history, later)
  {
    forall key
      ensures Recent(Known(attempts, key), later - c.windowMs) == Recent(Times(history, key), later - c.windowMs)
    {
      RecentTwice(Known(attempts, key), now - c.windowMs, later - c.windowMs);
      RecentTwice(Times(history, key), now - c.windowMs, later - c.windowMs);
    }
  }

  /** Under agreement, the keys with something remembered that is not stale are the live ones. */
  lemma LiveKeysRemembered(c: Config, attempts: Attempts, history: seq<Grant>, now: int)
    requires Agrees(c, attempts, history, now)
    ensures Swept(attempts, now - c.windowMs).Keys == LiveKeys(history, now - c.windowMs)
  {
    var oldest := now - c.windowMs;
    forall key ensures key in Swept(attempts, oldest) <==> key in LiveKeys(history, oldest) {
      assert Recent(Known(attempts, key), oldest) == Recent(Times(history, key), oldest);
      if key in Swept(attempts, oldest) {
        var at := Recent(Times(history, key), oldest)[0];
        RecentHolds(Times(history, key), oldest, at);
        TimesAreGrants(history, key, at);
      }
      if key in LiveKeys(history, oldest) {
        var g :| g in history && g.at > oldest && g.key == key;
        TimesAreGrants(history, key, g.at);
        RecentHolds(Times(history, key), oldest, g.at);
      }
    }
  }

  lemma SubsetSize(a: set<string>, b: set<string>)
    requires a <= b
    ensures |a| <= |b|
  {
    if a != b {
      assert |b - a| + |a| == |b|;
    }
  }

  /** One call decides as the full history does. */
  lemma DecisionIsHistorys(c: Config, attempts: Attempts, history: seq<Grant>, call: Call)
    requires Agrees(c, attempts, history, call.now)
    ensures Consume(c, attempts, call).1 <==> Allowed(c, history, call)
  {
    var oldest := call.now - c.windowMs;
    LiveKeysRemembered(c, attempts, history, call.now);
    assert Recent(Known(attempts, call.key), oldest) == Recent(Times(history, call.key), oldest);
    RoomIsLiveKeys(c, attempts, LiveKeys(history, oldest), call.key, oldest);
    ConsumeDecides(c, attempts, call);
  }

  lemma ConsumeDecides(c: Config, attempts: Attempts, call: Call)
    ensures var oldest := call.now - c.windowMs;
            Consume(c, attempts, call).1
            <==> (call.key in attempts || |attempts| < c.maxTrackedKeys || |Swept(attempts, oldest)| < c.maxTrackedKeys)
                 && |Recent(Known(attempts, call.key), oldest)| < c.limit
  {
  }

  /** Room for a key - it is known, or the map is not full after a sweep - is room among the live keys. */
  lemma RoomIsLiveKeys(c: Config, attempts: Attempts, live: set<string>, key: string, oldest: int)
    requires |attempts| == 0 || |attempts| <= c.maxTrackedKeys
    requires live == Swept(attempts, oldest).Keys
    ensures (key in attempts || |attempts| < c.maxTrackedKeys || |Swept(attempts, oldest)| < c.maxTrackedKeys)
            <==> |live - {key}| < c.maxTrackedKeys
  {
    var swept := Swept(attempts, oldest);
    assert |swept| == |swept.Keys| && |attempts| == |attempts.Keys|;
    if key in attempts {
      SubsetSize(live - {key}, attempts.Keys - {key});
    } else {
      assert live - {key} == live;
      SubsetSize(live, attempts.Keys);
    }
  }

  /** One call keeps agreement and the memory bounds. */
  lemma CallKeepsAgreement(c: Config, attempts: Attempts, history: seq<Grant>, call: Call)
    requires Agrees(c, attempts, history, call.now)
    ensures var (attempts', granted) := Consume(c, attempts, call);
            Agrees(c, attempts', if granted then history + [Grant(call.key, call.now)] else history, call.now)
  {
    var oldest := call.now - c.windowMs;
    var (attempts', granted) := Consume(c, attempts, call);
    var history' := if granted then history + [Grant(call.key, call.now)] else history;
    forall key ensures Recent(Known(attempts', key), oldest) == Recent(Times(history', key), oldest) {
      assert Recent(Known(attempts, key), oldest) == Recent(Times(history, key), oldest);
      KeyAgrees(c, attempts, history, call, key);
    }
    KeepsBounds(c, attempts, call, oldest);
  }

  lemma KeyAgrees(c: Config, attempts: Attempts, history: seq<Grant>, call: Call, key: string)
    requires var oldest := call.now - c.windowMs;
             Recent(Known(attempts, key), oldest) == Recent(Times(history, key), oldest)
    ensures var oldest := call.now - c.windowMs;
            var (attempts', granted) := Consume(c, attempts, call);
            var history' := if granted then history + [Grant(call.key, call.now)] else history;
            Recent(Known(attempts', key), oldest) == Recent(Times(history', key), oldest)
  {
    var oldest := call.now - c.windowMs;
    TimesStep(history, call, key);
    if key == call.key {
      OwnKeyAgrees(c, attempts, call);
      RecentStep(Times(history, key), call.now, oldest);
    } else {
      OtherKeyAgrees(c, attempts, call, key);
    }
  }

  lemma TimesStep(history: seq<Grant>, call: Call, key: string)
    ensures Times(history + [Grant(call.key, call.now)], key)
            == if key == call.key then Times(history, key) + [call.now] else Times(history, key)
  {
    assert Init(history + [Grant(call.key, call.now)]) == history;
  }

  lemma RecentStep(times: seq<int>, at: int, oldest: int)
    ensures Recent(times + [at], oldest) == if at > oldest then Recent(times, oldest) + [at] else Recent(times, oldest)
  {
    assert Init(times + [at]) == times;
  }

  lemma OwnKeyAgrees(c: Config, attempts: Attempts, call: Call)
    ensures var oldest := call.now - c.windowMs;
            var (attempts', granted) := Consume(c, attempts, call);
            var recent := Recent(Known(attempts, call.key), oldest);
            Recent(Known(attempts', call.key), oldest)
            == if granted && call.now > oldest then recent + [call.now] else recent
  {
    var oldest := call.now - c.windowMs;
    RecentTwice(Known(attempts, call.key), oldest, oldest);
    RecentStep(Recent(Known(attempts, call.key), oldest), call.now, oldest);
  }

  lemma OtherKeyAgrees(c: Config, attempts: Attempts, call: Call, key: string)
    requires key != call.key
    ensures var oldest := call.now - c.windowMs;
            Recent(Known(Consume(c, attempts, call).0, key), oldest) == Recent(Known(attempts, key), oldest)
  {
  }

  lemma KeepsBounds(c: Config, attempts: Attempts, call: Call, oldest: int)
    requires oldest == call.now - c.windowMs
    requires |attempts| == 0 || |attempts| <= c.maxTrackedKeys
    requires forall key :: key in attempts ==> attempts[key] == [] || |attempts[key]| <= c.limit
    ensures var attempts' := Consume(c, attempts, call).0;
            && (|attempts'| == 0 || |attempts'| <= c.maxTrackedKeys)
            && (forall key :: key in attempts' ==> attempts'[key] == [] || |attempts'[key]| <= c.limit)
  {
    var attempts' := Consume(c, attempts, call).0;
    var swept := Swept(attempts, oldest);
    RecentSize(Known(attempts, call.key), oldest);
    assert swept.Keys <= attempts.Keys;
    SubsetSize(swept.Keys, attempts.Keys);
    assert |swept| == |swept.Keys| && |attempts| == |attempts.Keys|;
    if call.key in attempts {
      assert attempts'.Keys == attempts.Keys;
      assert |attempts'| == |attempts'.Keys|;
    }
  }

  lemma {:induction false} RecentSize(times: seq<int>, oldest: int)
    ensures |Recent(times, oldest)| <= |times|
  {
    if times != [] {
      RecentSize(Init(times), oldest);
    }
  }

  // ---------------------------------------------------------------- main results

  lemma {:induction false} RunAgrees(c: Config, calls: seq<Call>, now: int)
    requires Monotone(calls) && (calls != [] ==> Last(calls).now <= now)
    ensures Agrees(c, Run(c, calls).attempts, Run(c, calls).history, now)
    ensures |Run(c, calls).answers| == |calls|
  {
    if calls == [] {
    } else {
      var s := Run(c, Init(calls));
      RunAgrees(c, Init(calls), Last(calls).now);
      CallKeepsAgreement(c, s.attempts, s.history, Last(calls));
      AgreesLater(c, Run(c, calls).attempts, Run(c, calls).history, Last(calls).now, now);
    }
  }

  /** Exactness: over every run with a clock that never steps back, a call is granted if and only if the
      full history holds fewer than `limit` live grants for its key and fewer than `maxTrackedKeys` other
      keys hold one. Sweeping, pruning and refusing untracked keys never change a decision. */
  lemma ForgettingIsInvisible(c: Config, calls: seq<Call>, call: Call)
    requires Monotone(calls + [call])
    ensures Last(Run(c, calls + [call]).answers) <==> Allowed(c, Run(c, calls).history, call)
  {
    assert Init(calls + [call]) == calls;
    assert Monotone(calls) by {
      forall i, j | 0 <= i < j < |calls| ensures calls[i].now <= calls[j].now {
        assert (calls + [call])[i].now <= (calls + [call])[j].now;
      }
    }
    if calls != [] {
      assert (calls + [call])[|calls| - 1].now <= (calls + [call])[|calls|].now;
    }
    RunAgrees(c, calls, call.now);
    DecisionIsHistorys(c, Run(c, calls).attempts, Run(c, calls).history, call);
  }

  /** Memory stays bounded whatever arrives. */
  lemma {:induction false} MemoryIsBounded(c: Config, calls: seq<Call>)
    ensures var attempts := Run(c, calls).attempts;
            && (|attempts| == 0 || |attempts| <= c.maxTrackedKeys)
            && (forall key :: key in attempts ==> attempts[key] == [] || |attempts[key]| <= c.limit)
  {
    if calls != [] {
      MemoryIsBounded(c, Init(calls));
      KeepsBounds(c, Run(c, Init(calls)).attempts, Last(calls), Last(calls).now - c.windowMs);
    }
  }

  /** How many of a key's grants fall into the span (from, from + windowMs]. */
  function InSpan(times: seq<int>, from: int, windowMs: int): nat {
    if times == [] then 0
    else InSpan(Init(times), from, windowMs) + if from < Last(times) <= from + windowMs then 1 else 0
  }

  /** When the calls were made. */
  function Clock(calls: seq<Call>): seq<int> {
    seq(|calls|, i requires 0 <= i < |calls| => calls[i].now)
  }

  /** The clock has not been a whole window past an earlier moment that `now` lies within a window of. */
  predicate NoReturnTo(clock: seq<int>, now: int, windowMs: int) {
    forall i, j :: 0 <= i < j < |clock| ==> !(clock[i] - windowMs < now < clock[i] + windowMs <= clock[j])
  }

  /** Once a window has passed since some moment, the clock never comes back to within a window of it. Smaller
      steps back are harmless, and so is a clock that never steps back. */
  predicate NeverReturns(clock: seq<int>, windowMs: int) {
    forall k :: 0 <= k < |clock| ==> NoReturnTo(clock[..k], clock[k], windowMs)
  }

  lemma MonotoneNeverReturns(calls: seq<Call>, windowMs: int)
    requires Monotone(calls)
    ensures NeverReturns(Clock(calls), windowMs)
  {
    var clock := Clock(calls);
    forall k | 0 <= k < |clock| ensures NoReturnTo(clock[..k], clock[k], windowMs) {
      forall i, j | 0 <= i < j < k ensures !(clock[i] - windowMs < clock[k] < clock[i] + windowMs <= clock[j]) {
        assert calls[j].now <= calls[k].now;
      }
    }
  }

  /** Every time the limiter remembers is one a call was made at. */
  lemma {:induction false} KnownAreCalls(c: Config, calls: seq<Call>, key: string, at: int)
    requires at in Known(Run(c, calls).attempts, key)
    ensures at in Clock(calls)
  {
    if calls != [] {
      var before, call := Init(calls), Last(calls);
      assert calls == before + [call] && Clock(calls) == Clock(before) + [call.now];
      RunStep(c, before, call);
      KnownIsOldOrNow(c, Run(c, before).attempts, call, key, at);
      if at in Known(Run(c, before).attempts, key) {
        KnownAreCalls(c, before, key, at);
      }
    }
  }

  lemma KnownIsOldOrNow(c: Config, attempts: Attempts, call: Call, key: string, at: int)
    requires at in Known(Consume(c, attempts, call).0, key)
    ensures at in Known(attempts, key) || at == call.now
  {
    KnownAfter(c, attempts, call, key);
    RecentHolds(Known(attempts, key), call.now - c.windowMs, at);
  }

  /** Forgetting what lies outside a span does not change what falls into it. */
  lemma {:induction false} PrunedOutside(times: seq<int>, oldest: int, from: int, windowMs: int)
    requires forall at :: at in times && at <= oldest ==> !(from < at <= from + windowMs)
    ensures InSpan(Recent(times, oldest), from, windowMs) == InSpan(times, from, windowMs)
  {
    if times != [] {
      assert Last(times) in times && forall at :: at in Init(times) ==> at in times;
      PrunedOutside(Init(times), oldest, from, windowMs);
      if Last(times) > oldest {
        SpanStep(Recent(Init(times), oldest), Last(times), from, windowMs);
      }
    }
  }

  /** What one call leaves known of a key: what it knew, or only what is recent of it, and perhaps this call. */
  lemma KnownAfter(c: Config, attempts: Attempts, call: Call, key: string)
    ensures var oldest := call.now - c.windowMs;
            var (attempts', granted) := Consume(c, attempts, call);
            var known, known' := Known(attempts, key), Known(attempts', key);
            && (key == call.key && granted ==> known' == Recent(known, oldest) + [call.now])
            && (key != call.key || !granted ==> known' == known || known' == Recent(known, oldest))
  {
  }

  /** While the clock does not return to it, every grant in a span around `now` is remembered. */
  lemma {:induction false} SpanIsRemembered(c: Config, calls: seq<Call>, key: string, now: int, from: int)
    requires NoReturnTo(Clock(calls), now, c.windowMs) && from < now <= from + c.windowMs
    ensures InSpan(Known(Run(c, calls).attempts, key), from, c.windowMs)
            == InSpan(Times(Run(c, calls).history, key), from, c.windowMs)
  {
    if calls != [] {
      var before, call := Init(calls), Last(calls);
      var oldest := call.now - c.windowMs;
      assert calls == before + [call] && Clock(calls) == Clock(before) + [call.now];
      assert forall i :: 0 <= i < |before| ==> Clock(calls)[i] == Clock(before)[i];
      SpanIsRemembered(c, before, key, now, from);
      RunStep(c, before, call);
      var known := Known(Run(c, before).attempts, key);
      KnownAfter(c, Run(c, before).attempts, call, key);
      forall at | at in known && at <= oldest ensures !(from < at <= from + c.windowMs) {
        KnownAreCalls(c, before, key, at);
        var i :| 0 <= i < |before| && Clock(before)[i] == at;
        assert Clock(calls)[i] == at && Clock(calls)[|before|] == call.now;
      }
      PrunedOutside(known, oldest, from, c.windowMs);
      SpanStep(Recent(known, oldest), call.now, from, c.windowMs);
      TimesStep(Run(c, before).history, call, key);
      SpanStep(Times(Run(c, before).history, key), call.now, from, c.windowMs);
    }
  }

  lemma NeverReturnsBefore(before: seq<Call>, call: Call, windowMs: int)
    requires NeverReturns(Clock(before + [call]), windowMs)
    ensures NeverReturns(Clock(before), windowMs) && NoReturnTo(Clock(before), call.now, windowMs)
  {
    var clock := Clock(before + [call]);
    assert clock == Clock(before) + [call.now];
    assert clock[..|before|] == Clock(before) && clock[|before|] == call.now;
    forall k | 0 <= k < |before| ensures NoReturnTo(Clock(before)[..k], Clock(before)[k], windowMs) {
      assert clock[..k] == Clock(before)[..k] && clock[k] == Clock(before)[k];
    }
  }

  lemma GrantedHasRoom(c: Config, attempts: Attempts, call: Call)
    ensures Consume(c, attempts, call).1 ==> |Recent(Known(attempts, call.key), call.now - c.windowMs)| < c.limit
  {
  }

  /** No key is ever granted more than `limit` times within any span of `windowMs`, under any clock that never
      returns. */
  lemma {:induction false} NeverMoreThanLimit(c: Config, calls: seq<Call>, key: string, from: int)
    requires NeverReturns(Clock(calls), c.windowMs)
    ensures var granted := InSpan(Times(Run(c, calls).history, key), from, c.windowMs);
            granted == 0 || granted <= c.limit
  {
    if calls != [] {
      var before, call := Init(calls), Last(calls);
      assert calls == before + [call];
      NeverReturnsBefore(before, call, c.windowMs);
      NeverMoreThanLimit(c, before, key, from);
      RunStep(c, before, call);
      GrantedHasRoom(c, Run(c, before).attempts, call);
      TimesStep(Run(c, before).history, call, key);
      SpanStep(Times(Run(c, before).history, key), call.now, from, c.windowMs);
      if from < call.now <= from + c.windowMs {
        SpanIsRemembered(c, before, key, call.now, from);
        SpanIsLive(Known(Run(c, before).attempts, key), from, c.windowMs, call.now);
      }
    }
  }

  // ---------------------------------------------------------------- which clocks keep the limit

  /** Calls made at moments of a clock, in its order: at each any number of them, under any keys. */
  predicate Follows(calls: seq<Call>, clock: seq<int>, moments: seq<nat>) {
    && |moments| == |calls|
    && (forall x :: 0 <= x < |calls| ==> moments[x] < |clock| && calls[x].now == clock[moments[x]])
    && (forall x, y :: 0 <= x < y < |calls| ==> moments[x] <= moments[y])
  }

  lemma FollowingNeverReturns(calls: seq<Call>, clock: seq<int>, moments: seq<nat>, windowMs: int)
    requires Follows(calls, clock, moments) && NeverReturns(clock, windowMs)
    ensures NeverReturns(Clock(calls), windowMs)
  {
    var at := Clock(calls);
    forall k | 0 <= k < |at| ensures NoReturnTo(at[..k], at[k], windowMs) {
      forall i, j | 0 <= i < j < k ensures !(at[i] - windowMs < at[k] < at[i] + windowMs <= at[j]) {
        if moments[i] < moments[j] < moments[k] {
          assert NoReturnTo(clock[..moments[k]], clock[moments[k]], windowMs);
          assert clock[..moments[k]][moments[i]] == at[i] && clock[..moments[k]][moments[j]] == at[j];
        }
      }
    }
  }

  function Repeated<T>(x: T, n: nat): (s: seq<T>)
    ensures |s| == n
  {
    seq(n, _ => x)
  }

  lemma RepeatedStep<T>(x: T, n: nat)
    requires n > 0
    ensures Repeated(x, n) == Repeated(x, n - 1) + [x] && Init(Repeated(x, n)) == Repeated(x, n - 1)
  {
  }

  /** A key that uses up its limit at one moment. */
  lemma {:induction false} UsesUp(c: Config, key: string, at: int, n: nat)
    requires n <= c.limit && c.maxTrackedKeys >= 1 && c.windowMs > 0
    ensures Run(c, Repeated(Call(key, at), n))
            == State(if n == 0 then map[] else map[key := Repeated(at, n)],
                     Repeated(Grant(key, at), n), Repeated(true, n))
    ensures Recent(Repeated(at, n), at - c.windowMs) == Repeated(at, n)
  {
    if n == 0 {
      assert Repeated(Call(key, at), 0) == [];
    } else {
      UsesUp(c, key, at, n - 1);
      RepeatedStep(Call(key, at), n);
      RepeatedStep(at, n);
      RepeatedStep(Grant(key, at), n);
      RepeatedStep(true, n);
      RunStep(c, Repeated(Call(key, at), n - 1), Call(key, at));
      UsesOne(c, if n == 1 then map[] else map[key := Repeated(at, n - 1)], key, at, n - 1);
    }
  }

  lemma UsesOne(c: Config, attempts: Attempts, key: string, at: int, n: nat)
    requires n < c.limit && c.maxTrackedKeys >= 1
    requires attempts == (if n == 0 then map[] else map[key := Repeated(at, n)])
    requires Recent(Repeated(at, n), at - c.windowMs) == Repeated(at, n)
    ensures Consume(c, attempts, Call(key, at)) == (map[key := Repeated(at, n) + [at]], true)
  {
    assert attempts[key := Repeated(at, n) + [at]] == map[key := Repeated(at, n) + [at]];
    assert n == 0 ==> Repeated(at, n) == [];
  }

  lemma {:induction false} AllStaleNow(at: int, n: nat, oldest: int)
    ensures at <= oldest ==> Recent(Repeated(at, n), oldest) == []
  {
    if n > 0 {
      RepeatedStep(at, n);
      AllStaleNow(at, n - 1, oldest);
    }
  }

  lemma {:induction false} RepeatedInSpan(at: int, n: nat, from: int, windowMs: int)
    requires from < at <= from + windowMs
    ensures InSpan(Repeated(at, n), from, windowMs) == n
  {
    if n > 0 {
      RepeatedStep(at, n);
      RepeatedInSpan(at, n - 1, from, windowMs);
    }
  }

  lemma {:induction false} RepeatedTimes(key: string, at: int, n: nat)
    ensures Times(Repeated(Grant(key, at), n), key) == Repeated(at, n)
  {
    if n > 0 {
      RepeatedStep(Grant(key, at), n);
      RepeatedStep(at, n);
      RepeatedTimes(key, at, n - 1);
    } else {
      assert Repeated(Grant(key, at), 0) == [] && Repeated(at, 0) == [];
    }
  }

  /** One moment full, one a window later, and one back within the window of the first: one grant too many. */
  lemma ReturningOvergrants(c: Config, key: string, early: int, past: int, back: int)
    requires c.limit >= 2 && c.maxTrackedKeys >= 1
    requires early - c.windowMs < back < early + c.windowMs <= past
    ensures var calls := Repeated(Call(key, early), c.limit) + [Call(key, past)] + [Call(key, back)];
            var from := (if early < back then back else early) - c.windowMs;
            InSpan(Times(Run(c, calls).history, key), from, c.windowMs) == c.limit + 1
  {
    var L := c.limit;
    var from := (if early < back then back else early) - c.windowMs;
    ThreeStages(c, key, early, past, back);
    RepeatedTimes(key, early, L);
    TimesStep(Repeated(Grant(key, early), L), Call(key, past), key);
    TimesStep(Repeated(Grant(key, early), L) + [Grant(key, past)], Call(key, back), key);
    RepeatedInSpan(early, L, from, c.windowMs);
    SpanStep(Repeated(early, L), past, from, c.windowMs);
    SpanStep(Repeated(early, L) + [past], back, from, c.windowMs);
  }

  lemma ThreeStages(c: Config, key: string, early: int, past: int, back: int)
    requires c.limit >= 2 && c.maxTrackedKeys >= 1
    requires early - c.windowMs < back < early + c.windowMs <= past
    ensures var calls := Repeated(Call(key, early), c.limit) + [Call(key, past)] + [Call(key, back)];
            Run(c, calls).history == Repeated(Grant(key, early), c.limit) + [Grant(key, past)] + [Grant(key, back)]
  {
    var full := Repeated(Call(key, early), c.limit);
    UsesUp(c, key, early, c.limit);
    AllStaleNow(early, c.limit, past - c.windowMs);
    RunStep(c, full, Call(key, past));
    GrantsAfresh(c, key, Repeated(early, c.limit), past);
    RunStep(c, full + [Call(key, past)], Call(key, back));
    GrantsAgain(c, key, past, back);
  }

  /** When all it knows is stale, the limiter starts afresh. */
  lemma GrantsAfresh(c: Config, key: string, times: seq<int>, now: int)
    requires c.limit >= 1 && Recent(times, now - c.windowMs) == []
    ensures Consume(c, map[key := times], Call(key, now)) == (map[key := [now]], true)
  {
    var known: Attempts := map[key := times];
    assert [] + [now] == [now];
    assert known[key := [now]] == map[key := [now]];
  }

  lemma GrantsAgain(c: Config, key: string, past: int, now: int)
    requires c.limit >= 2 && past > now - c.windowMs
    ensures Consume(c, map[key := [past]], Call(key, now)).1
  {
    RecentStep([], past, now - c.windowMs);
    assert [] + [past] == [past];
  }

  /** The clocks that keep the limit are exactly those that never return: for a limit of two or more, whatever is
      called at the moments of a clock, under whatever keys, no span holds more than `limit` grants of one key - if
      and only if that clock never comes back to within a window of a moment it has left a window behind. */
  lemma LimitKeptExactlyWhen(c: Config, clock: seq<int>)
    requires c.limit >= 2 && c.maxTrackedKeys >= 1
    ensures (forall calls, moments, key, from :: Follows(calls, clock, moments) ==>
               InSpan(Times(Run(c, calls).history, key), from, c.windowMs) <= c.limit)
            <==> NeverReturns(clock, c.windowMs)
  {
    if NeverReturns(clock, c.windowMs) {
      forall calls, moments, key, from | Follows(calls, clock, moments)
        ensures InSpan(Times(Run(c, calls).history, key), from, c.windowMs) <= c.limit
      {
        FollowingNeverReturns(calls, clock, moments, c.windowMs);
        NeverMoreThanLimit(c, calls, key, from);
      }
    } else {
      var calls, moments, key, from := ReturnIsFatal(c, clock);
      assert Follows(calls, clock, moments);
    }
  }

  lemma ReturnIsFatal(c: Config, clock: seq<int>) returns (calls: seq<Call>, moments: seq<nat>, key: string, from: int)
    requires c.limit >= 2 && c.maxTrackedKeys >= 1 && !NeverReturns(clock, c.windowMs)
    ensures Follows(calls, clock, moments)
    ensures InSpan(Times(Run(c, calls).history, key), from, c.windowMs) == c.limit + 1
  {
    var i, j, k := TheReturn(clock, c.windowMs);
    key := "";
    calls := Repeated(Call(key, clock[i]), c.limit) + [Call(key, clock[j])] + [Call(key, clock[k])];
    moments := Repeated(i, c.limit) + [j] + [k];
    from := (if clock[i] < clock[k] then clock[k] else clock[i]) - c.windowMs;
    TripleFollows(clock, i, j, k, c.limit, key);
    ReturningOvergrants(c, key, clock[i], clock[j], clock[k]);
  }

  lemma TheReturn(clock: seq<int>, windowMs: int) returns (i: nat, j: nat, k: nat)
    requires !NeverReturns(clock, windowMs)
    ensures i < j < k < |clock| && clock[i] - windowMs < clock[k] < clock[i] + windowMs <= clock[j]
  {
    k :| 0 <= k < |clock| && !NoReturnTo(clock[..k], clock[k], windowMs);
    i, j :| 0 <= i < j < k && clock[..k][i] - windowMs < clock[k] < clock[..k][i] + windowMs <= clock[..k][j];
  }

  lemma TripleFollows(clock: seq<int>, i: nat, j: nat, k: nat, n: nat, key: string)
    requires i < j < k < |clock|
    ensures Follows(Repeated(Call(key, clock[i]), n) + [Call(key, clock[j])] + [Call(key, clock[k])], clock,
                    Repeated(i, n) + [j] + [k])
  {
    var calls, moments := Repeated(Call(key, clock[i]), n) + [Call(key, clock[j])] + [Call(key, clock[k])],
                          Repeated(i, n) + [j] + [k];
    forall x | 0 <= x < |calls|
      ensures moments[x] == (if x < n then i else if x == n then j else k) && calls[x].now == clock[moments[x]]
    {
    }
  }

  lemma SpanStep(times: seq<int>, at: int, from: int, windowMs: int)
    ensures InSpan(times + [at], from, windowMs)
            == InSpan(times, from, windowMs) + if from < at <= from + windowMs then 1 else 0
  {
    assert Init(times + [at]) == times;
  }

  /** Whatever falls into a span ending at or after `now` is still live at `now`. */
  lemma {:induction false} SpanIsLive(times: seq<int>, from: int, windowMs: int, now: int)
    requires now <= from + windowMs
    ensures InSpan(times, from, windowMs) <= |Recent(times, now - windowMs)|
  {
    if times != [] {
      SpanIsLive(Init(times), from, windowMs, now);
    }
  }

  /** The clock matters: when it steps back after a prune, a key can be granted more than its limit. */
  lemma BackwardClockOvergrants(key: string)
    ensures var c := Config(2, 10, 1);
            var calls := [Call(key, 20), Call(key, 20), Call(key, 31), Call(key, 25)];
            Run(c, calls).answers == [true, true, true, true]
            && InSpan(Times(Run(c, calls).history, key), 15, c.windowMs) == 3
  {
    var c := Config(2, 10, 1);
    var a, b, d, e := Call(key, 20), Call(key, 20), Call(key, 31), Call(key, 25);
    TwoThenPruned(c, key);
    assert [a, b, d] + [e] == [a, b, d, e];
    RunStep(c, [a, b, d], e);
    RecentStep([], 31, 15);
    assert Run(c, [a, b, d, e]).history == [Grant(key, 20), Grant(key, 20), Grant(key, 31), Grant(key, 25)];
    FourTimes(key);
    ThreeInSpan();
  }

  lemma ThreeInSpan()
    ensures InSpan([20, 20, 31, 25], 15, 10) == 3
  {
    assert [20] + [20] == [20, 20] && [20, 20] + [31] == [20, 20, 31] && [20, 20, 31] + [25] == [20, 20, 31, 25];
    SpanStep([], 20, 15, 10);
    SpanStep([20], 20, 15, 10);
    SpanStep([20, 20], 31, 15, 10);
    SpanStep([20, 20, 31], 25, 15, 10);
  }

  lemma FourTimes(key: string)
    ensures Times([Grant(key, 20), Grant(key, 20), Grant(key, 31), Grant(key, 25)], key) == [20, 20, 31, 25]
  {
    var g := (at: int) => Grant(key, at);
    assert [g(20)] + [g(20)] == [g(20), g(20)] && [g(20), g(20)] + [g(31)] == [g(20), g(20), g(31)];
    assert [g(20), g(20), g(31)] + [g(25)] == [g(20), g(20), g(31), g(25)];
    TimesStep([], Call(key, 20), key);
    TimesStep([g(20)], Call(key, 20), key);
    TimesStep([g(20), g(20)], Call(key, 31), key);
    TimesStep([g(20), g(20), g(31)], Call(key, 25), key);
  }

  lemma TwoThenPruned(c: Config, key: string)
    requires c == Config(2, 10, 1)
    ensures Run(c, [Call(key, 20), Call(key, 20), Call(key, 31)])
            == State(map[key := [31]], [Grant(key, 20), Grant(key, 20), Grant(key, 31)], [true, true, true])
  {
    var call := Call(key, 20);
    TwoGranted(c, key);
    assert [call, call] + [Call(key, 31)] == [call, call, Call(key, 31)];
    RunStep(c, [call, call], Call(key, 31));
    RecentStep([], 20, 21);
    RecentStep([20], 20, 21);
    assert [20] + [20] == [20, 20];
    var before: Attempts := map[key := [20, 20]];
    assert Recent(before[key], 21) == [] && Recent(before[key], 21) + [31] == [31];
    assert Consume(c, before, Call(key, 31)) == (before[key := [31]], true);
    assert before[key := [31]] == map[key := [31]];
  }

  lemma TwoGranted(c: Config, key: string)
    requires c == Config(2, 10, 1)
    ensures Run(c, [Call(key, 20), Call(key, 20)])
            == State(map[key := [20, 20]], [Grant(key, 20), Grant(key, 20)], [true, true])
  {
    var call := Call(key, 20);
    OneGranted(c, key);
    RunStep(c, [call], call);
    RecentStep([], 20, 10);
    assert [call] + [call] == [call, call] && [20] + [20] == [20, 20];
    var before: Attempts := map[key := [20]];
    assert Consume(c, before, call) == (before[key := [20, 20]], true);
    assert before[key := [20, 20]] == map[key := [20, 20]];
  }

  lemma OneGranted(c: Config, key: string)
    requires c == Config(2, 10, 1)
    ensures Run(c, [Call(key, 20)]) == State(map[key := [20]], [Grant(key, 20)], [true])
  {
    var call := Call(key, 20);
    RunStep(c, [], call);
    assert [] + [call] == [call];
    var empty: Attempts := map[];
    assert Recent(Known(empty, key), 10) == [] && [] + [20] == [20];
    assert Consume(c, empty, call) == (empty[key := [20]], true);
    assert empty[key := [20]] == map[key := [20]];
  }

  lemma RunStep(c: Config, calls: seq<Call>, call: Call)
    ensures var s := Run(c, calls);
            var (attempts, granted) := Consume(c, s.attempts, call);
            Run(c, calls + [call])
            == State(attempts, if granted then s.history + [Grant(call.key, call.now)] else s.history,
                     s.answers + [granted])
  {
    assert Init(calls + [call]) == calls;
  }
}
