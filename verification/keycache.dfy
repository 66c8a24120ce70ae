/**
The public key cache (`KeyCache` of iap-auth.py): one lock around every lookup, keys kept
for KEY_TTL, and at most one fetch attempt per REFRESH_INTERVAL, whether it works or not.
`Get` is one lookup, `Log` what a run of them did, `KeyCache` the code.
*/
module Keys {
  import opened Wrappers

  const KEY_TTL := 3600.0
  const REFRESH_INTERVAL := 60.0

  type KeyMap = map<string, string>

  /** The fields of the cache; no attempt yet is -inf in the code. */
  datatype Cache = Cache(keys: KeyMap, expires: real, lastAttempt: Option<real>, refreshFailed: bool)

  /** What a fetch would give, and the clock when it is done. */
  datatype Fetch = Broken | Fetched(keys: KeyMap, done: real)

  datatype Answer = Key(pem: string) | KeysUnavailable | InvalidAssertion

  datatype Lookup = Lookup(now: real, kid: string, fetch: Fetch)

  const EMPTY := Cache(map[], 0.0, None, false)

  predicate Cached(c: Cache, l: Lookup) {
    l.now < c.expires && l.kid in c.keys
  }

  /** The lookup goes to the network. */
  predicate Fetches(c: Cache, l: Lookup) {
    !Cached(c, l) && (c.lastAttempt.None? || l.now - c.lastAttempt.value >= REFRESH_INTERVAL)
  }

  function Get(c: Cache, l: Lookup): (Cache, Answer) {
    if Cached(c, l) then (c, Key(c.keys[l.kid]))
    else if !Fetches(c, l) then (c, if l.now >= c.expires || c.refreshFailed then KeysUnavailable else InvalidAssertion)
    else
      match l.fetch
      case Broken => (c.(lastAttempt := Some(l.now), refreshFailed := true), KeysUnavailable)
      case Fetched(keys, done) =>
        (Cache(keys, done + KEY_TTL, Some(l.now), false), if l.kid in keys then Key(keys[l.kid]) else InvalidAssertion)
  }

  // ------------------------------------------------------------------ runs

  /** One attempt to fetch: when it started, and what came of it. */
  datatype Attempt = Attempt(start: real, fetch: Fetch)

  /** The cache after a run, the clock, and the attempts so far. */
  datatype Log = Log(cache: Cache, clock: real, attempts: seq<Attempt>)

  /** The clock never goes back, neither between lookups nor during a fetch. */
  predicate Timely(g: Log, l: Lookup) {
    g.clock <= l.now && (Fetches(g.cache, l) && l.fetch.Fetched? ==> l.now <= l.fetch.done)
  }

  function Step(g: Log, l: Lookup): Log {
    Log(Get(g.cache, l).0,
        if Fetches(g.cache, l) && l.fetch.Fetched? then l.fetch.done else l.now,
        if Fetches(g.cache, l) then g.attempts + [Attempt(l.now, l.fetch)] else g.attempts)
  }

  /** The log of a run that starts at some reading of the clock; None if the clock went back. */
  function Run(start: real, lookups: seq<Lookup>): Option<Log> {
    if lookups == [] then Some(Log(EMPTY, start, []))
    else
      var last := |lookups| - 1;
      var before := Run(start, lookups[..last]);
      if before.Some? && Timely(before.value, lookups[last]) then Some(Step(before.value, lookups[last])) else None
  }

  /** The latest attempt that brought keys. */
  function LatestSuccess(attempts: seq<Attempt>): (r: Option<nat>)
    ensures r.Some? ==> r.value < |attempts| && attempts[r.value].fetch.Fetched?
    ensures r.Some? ==> forall i :: r.value < i < |attempts| ==> attempts[i].fetch.Broken?
    ensures r.None? ==> forall i :: 0 <= i < |attempts| ==> attempts[i].fetch.Broken?
  {
    if attempts == [] then None
    else if attempts[|attempts| - 1].fetch.Fetched? then Some(|attempts| - 1)
    else LatestSuccess(attempts[..|attempts| - 1])
  }

  predicate Spaced(attempts: seq<Attempt>) {
    forall i :: 1 <= i < |attempts| ==> attempts[i].start - attempts[i - 1].start >= REFRESH_INTERVAL
  }

  /**
  The cache holds what the attempts say: the keys and expiry of the latest success, the start of the last attempt, and
  its failure.
  */
  predicate Inv(g: Log) {
    var n := |g.attempts|;
    var s := LatestSuccess(g.attempts);
    && Spaced(g.attempts)
    && g.cache.lastAttempt == (if n == 0 then None else Some(g.attempts[n - 1].start))
    && (g.cache.refreshFailed <==> n > 0 && g.attempts[n - 1].fetch.Broken?)
    && g.cache.keys == (if s.None? then map[] else g.attempts[s.value].fetch.keys)
    && g.cache.expires == (if s.None? then 0.0 else g.attempts[s.value].fetch.done + KEY_TTL)
    && (forall i :: 0 <= i < n ==> g.attempts[i].start <= g.clock)
  }

  lemma {:induction false} StepKeepsInv(g: Log, l: Lookup)
    requires Inv(g) && Timely(g, l)
    ensures Inv(Step(g, l))
  {
    hide Spaced, LatestSuccess;
    var h := Step(g, l);
    if Fetches(g.cache, l) {
      StepSpaced(g, l);
      LatestOfMore(g.attempts, Attempt(l.now, l.fetch));
      assert h.attempts[|g.attempts|] == Attempt(l.now, l.fetch);
      assert forall i :: 0 <= i < |g.attempts| ==> h.attempts[i] == g.attempts[i];
    } else {
      assert h == Log(g.cache, l.now, g.attempts);
    }
  }

  lemma {:induction false} LatestOfMore(attempts: seq<Attempt>, a: Attempt)
    ensures LatestSuccess(attempts + [a]) == if a.fetch.Fetched? then Some(|attempts|) else LatestSuccess(attempts)
  {
    assert (attempts + [a])[..|attempts|] == attempts;
  }

  lemma {:induction false} StepSpaced(g: Log, l: Lookup)
    requires Inv(g) && Timely(g, l) && Fetches(g.cache, l)
    ensures Spaced(Step(g, l).attempts)
  {
    var more := Step(g, l).attempts;
    assert more == g.attempts + [more[|g.attempts|]];
    forall i | 1 <= i < |more| ensures more[i].start - more[i - 1].start >= REFRESH_INTERVAL {
      if i < |g.attempts| { assert g.attempts[i].start - g.attempts[i - 1].start >= REFRESH_INTERVAL; }
    }
  }

  lemma {:induction false} RunKeepsInv(start: real, lookups: seq<Lookup>)
    requires Run(start, lookups).Some?
    ensures Inv(Run(start, lookups).value)
  {
    if lookups != [] {
      RunKeepsInv(start, lookups[..|lookups| - 1]);
      StepKeepsInv(Run(start, lookups[..|lookups| - 1]).value, lookups[|lookups| - 1]);
    }
  }

  // ------------------------------------------------------------------ main results

  lemma {:induction false} SpacedApart(attempts: seq<Attempt>, i: nat, j: nat)
    requires Spaced(attempts) && i <= j < |attempts|
    ensures attempts[j].start - attempts[i].start >= REFRESH_INTERVAL * (j - i) as real
    decreases j - i
  {
    if i < j { SpacedApart(attempts, i, j - 1); }
  }

  /**
  Attempts i and j of a run are at least (j - i) intervals apart, so a span of T seconds holds at most T / 60 + 1 of
  them.
  */
  lemma {:induction false} AttemptsAreSpaced(start: real, lookups: seq<Lookup>, i: nat, j: nat, from: real, span: real)
    requires Run(start, lookups).Some? && i <= j < |Run(start, lookups).value.attempts|
    ensures var attempts := Run(start, lookups).value.attempts;
      && attempts[j].start - attempts[i].start >= 60.0 * (j - i) as real
      && (from <= attempts[i].start && attempts[j].start <= from + span ==>
        (j - i + 1) as real <= span / 60.0 + 1.0)
  {
    RunKeepsInv(start, lookups);
    SpacedApart(Run(start, lookups).value.attempts, i, j);
  }

  /**
  A key that a lookup returns is the key of that id in the latest successful fetch, this one
  included; a key from the cache is served less than an hour after that fetch was done. An
  assertion is called invalid only if that latest fetch lacks the id and no attempt failed since.
  */
  lemma {:induction false} AnswersComeFromLatestFetch(start: real, lookups: seq<Lookup>, l: Lookup)
    requires Run(start, lookups).Some? && Timely(Run(start, lookups).value, l)
    ensures var g := Run(start, lookups).value;
      var u := Step(g, l);
      var answer := Get(g.cache, l).1;
      var s := LatestSuccess(u.attempts);
      && (answer.Key? ==>
            && s.Some? && l.kid in u.attempts[s.value].fetch.keys && answer.pem == u.attempts[s.value].fetch.keys[l.kid]
            && (u.attempts == g.attempts ==> l.now < u.attempts[s.value].fetch.done + 3600.0))
      && (answer.InvalidAssertion? ==>
            && s == Some(|u.attempts| - 1) && l.kid !in u.attempts[s.value].fetch.keys
            && (u.attempts == g.attempts ==> l.now < u.attempts[s.value].fetch.done + 3600.0))
  {
    RunKeepsInv(start, lookups);
    var g := Run(start, lookups).value;
    StepKeepsInv(g, l);
    if Fetches(g.cache, l) { assert Step(g, l).attempts[|g.attempts|] == Attempt(l.now, l.fetch); }
  }

  /** The latest success, if it is less than an hour old. */
  function FreshKeys(attempts: seq<Attempt>, now: real): Option<KeyMap> {
    var s := LatestSuccess(attempts);
    if s.Some? && now < attempts[s.value].fetch.done + 3600.0 then Some(attempts[s.value].fetch.keys) else None
  }

  /**
  What a lookup does, by the attempts before it: a key of a fresh success is served without a
  fetch; otherwise, within a minute of the last attempt, nothing is fetched and the lookup
  fails, as invalid only if that attempt worked and is fresh; otherwise it fetches once more
  and answers with what that brings.
  */
  lemma {:induction false} LookupIs(start: real, lookups: seq<Lookup>, l: Lookup)
    requires Run(start, lookups).Some? && Timely(Run(start, lookups).value, l)
    ensures var g := Run(start, lookups).value;
      var before, after, answer := g.attempts, Step(g, l).attempts, Get(g.cache, l).1;
      var fresh', n := FreshKeys(before, l.now), |before|;
      if fresh'.Some? && l.kid in fresh'.value then
        answer == Key(fresh'.value[l.kid]) && after == before
      else if n > 0 && l.now - before[n - 1].start < 60.0 then
        after == before
        && answer == if fresh'.Some? && before[n - 1].fetch.Fetched? then InvalidAssertion else KeysUnavailable
      else
        after == before + [Attempt(l.now, l.fetch)]
        && answer == if l.fetch.Broken? then KeysUnavailable
                     else if l.kid in l.fetch.keys then Key(l.fetch.keys[l.kid]) else InvalidAssertion
  {
    RunKeepsInv(start, lookups);
  }

  /**
  However many refreshes fail, keys and expiry stay: a key that was cached before is still served until it expires.
  */
  lemma {:induction false} FailuresKeepKeys(start: real, lookups: seq<Lookup>, failing: seq<Lookup>, later: Lookup)
    requires Run(start, lookups).Some? && Run(start, lookups + failing).Some?
    requires forall i :: 0 <= i < |failing| ==> failing[i].fetch.Broken?
    ensures var c, d := Run(start, lookups).value.cache, Run(start, lookups + failing).value.cache;
      && d.keys == c.keys && d.expires == c.expires
      && (Cached(c, later) ==> Get(d, later) == (d, Key(c.keys[later.kid])))
  {
    if failing == [] { assert lookups + failing == lookups; }
    else {
      var fewer := failing[..|failing| - 1];
      assert (lookups + failing)[..|lookups + failing| - 1] == lookups + fewer;
      FailuresKeepKeys(start, lookups, fewer, later);
      assert (lookups + failing)[|lookups + failing| - 1] == failing[|failing| - 1];
    }
  }

  // ------------------------------------------------------------------ the code

  class KeyCache {
    var keys: KeyMap
    var expires: real
    var lastAttempt: Option<real>
    var refreshFailed: bool

    constructor ()
      ensures Now() == EMPTY
    {
      keys, expires, lastAttempt, refreshFailed := map[], 0.0, None, false;
    }

    function Now(): Cache
      reads this
    {
      Cache(keys, expires, lastAttempt, refreshFailed)
    }

    /** get, under the lock; `fetch` is what fetch_public_keys would give. */
    method Find(l: Lookup) returns (r: Answer)
      modifies this
      ensures (Now(), r) == Get(old(Now()), l)
    {
      var fresh' := l.now < expires;
      if fresh' && l.kid in keys { return Key(keys[l.kid]); }
      if lastAttempt.Some? && l.now - lastAttempt.value < REFRESH_INTERVAL {
        if !fresh' || refreshFailed { return KeysUnavailable; }
        return InvalidAssertion;
      }
      lastAttempt := Some(l.now);
      if l.fetch.Broken? {
        refreshFailed := true;
        return KeysUnavailable;
      }
      keys := l.fetch.keys;
      expires := l.fetch.done + KEY_TTL;
      refreshFailed := false;
      if l.kid !in keys { return InvalidAssertion; }
      r := Key(keys[l.kid]);
    }
  }
}
