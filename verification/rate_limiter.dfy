/** The per-user sliding-window rate limiter of the bot
    (src/utils/rate-limiter.ts). Time is the millisecond clock value the
    caller passes in; the one-in-a-hundred random cleanup is an input
    saying whether (and at which clock value) cleanup runs. */
module RateLimiting {
  import opened Collections
  import opened Text

  const DefaultMaxRequests := 20
  const DefaultWindowMs := 60000

  /** The timestamps still inside the window at `now`: `now - t < windowMs`,
      so an entry exactly `windowMs` old has expired. */
  function Recent(ts: seq<int>, now: int, windowMs: int): (r: seq<int>)
    ensures forall t :: t in r <==> t in ts && now - t < windowMs
    ensures IsSubseq(r, ts)
  {
    FilterIsSubseq(ts, t => now - t < windowMs);
    Filter(ts, t => now - t < windowMs)
  }

  /** Pruning at a later time keeps exactly what pruning once at that time
      keeps. */
  lemma RecentTwice(ts: seq<int>, now: int, later: int, windowMs: int)
    requires now <= later
    ensures Recent(Recent(ts, now, windowMs), later, windowMs) == Recent(ts, later, windowMs)
  {
    FilterFilter(ts, t => now - t < windowMs, t => later - t < windowMs, t => later - t < windowMs);
  }

  /** The stored list of `user`, empty when there is none. */
  function Stored(requests: map<string, seq<int>>, user: string): seq<int> {
    if user in requests then requests[user] else []
  }

  datatype Admission = Admission(allowed: bool, requests: map<string, seq<int>>)

  /** `isAllowed` without the random cleanup: a user with `maxRequests`
      recent requests is refused and nothing is stored; otherwise the
      recent requests plus `now` become the user's list. */
  function Admit(requests: map<string, seq<int>>, user: string, now: int, maxRequests: int, windowMs: int): (r: Admission)
    ensures !r.allowed <==> |Recent(Stored(requests, user), now, windowMs)| >= maxRequests
    ensures !r.allowed ==> r.requests == requests
    ensures r.allowed ==>
      r.requests.Keys == requests.Keys + {user}
      && r.requests[user] == Recent(Stored(requests, user), now, windowMs) + [now]
      && |r.requests[user]| <= maxRequests
      && (windowMs > 0 ==> forall t :: t in r.requests[user] ==> now - t < windowMs)
    ensures forall u :: u in requests && u != user ==> u in r.requests && r.requests[u] == requests[u]
  {
    var recent := Recent(Stored(requests, user), now, windowMs);
    if |recent| >= maxRequests then Admission(false, requests)
    else Admission(true, requests[user := recent + [now]])
  }

  /** `cleanup()` at clock `now`: users without a recent request are
      removed, the others keep only their recent requests. */
  function Cleaned(requests: map<string, seq<int>>, now: int, windowMs: int): (r: map<string, seq<int>>)
    ensures forall u :: u in r <==> u in requests && Recent(requests[u], now, windowMs) != []
    ensures forall u :: u in r ==> r[u] == Recent(requests[u], now, windowMs)
  {
    map u | u in requests && Recent(requests[u], now, windowMs) != [] :: Recent(requests[u], now, windowMs)
  }

  /** Cleanup never changes a later decision: for any user and any clock
      value not before the cleanup, `isAllowed` answers the same and stores
      the same list for that user. */
  lemma CleanupInvisible(requests: map<string, seq<int>>, now: int, later: int, user: string, maxRequests: int, windowMs: int)
    requires now <= later
    ensures var before := Admit(requests, user, later, maxRequests, windowMs);
      var after := Admit(Cleaned(requests, now, windowMs), user, later, maxRequests, windowMs);
      before.allowed == after.allowed
      && (before.allowed ==> Stored(before.requests, user) == Stored(after.requests, user))
      && Recent(Stored(before.requests, user), later, windowMs) == Recent(Stored(after.requests, user), later, windowMs)
  {
    var cleaned := Cleaned(requests, now, windowMs);
    if user in requests {
      RecentTwice(requests[user], now, later, windowMs);
      if user !in cleaned {
        assert Recent(requests[user], now, windowMs) == [];
        assert Recent(requests[user], later, windowMs) == [];
      }
    }
    assert Recent(Stored(cleaned, user), later, windowMs) == Recent(Stored(requests, user), later, windowMs);
    var before := Admit(requests, user, later, maxRequests, windowMs);
    var after := Admit(cleaned, user, later, maxRequests, windowMs);
    if !before.allowed {
      assert Stored(before.requests, user) == Stored(requests, user);
      assert Stored(after.requests, user) == Stored(cleaned, user);
    }
  }

  /** The map part-way through cleanup: the users in `done` have been
      pruned (and dropped when nothing recent is left), the others are
      as they were. */
  ghost function CleanedPart(start: map<string, seq<int>>, done: set<string>, now: int, windowMs: int): map<string, seq<int>> {
    map u | u in start && (u !in done || Recent(start[u], now, windowMs) != []) ::
      if u in done then Recent(start[u], now, windowMs) else start[u]
  }

  /** Pruning one more user advances the partial map by that user. */
  lemma CleanStep(start: map<string, seq<int>>, done: set<string>, user: string, now: int, windowMs: int)
    requires user in start && user !in done
    ensures var m := CleanedPart(start, done, now, windowMs);
      user in m && m[user] == start[user]
      && (if Recent(m[user], now, windowMs) == [] then m - {user} else m[user := Recent(m[user], now, windowMs)])
         == CleanedPart(start, done + {user}, now, windowMs)
  {
    var m := CleanedPart(start, done, now, windowMs);
    var next := if Recent(m[user], now, windowMs) == [] then m - {user} else m[user := Recent(m[user], now, windowMs)];
    var want := CleanedPart(start, done + {user}, now, windowMs);
    assert next.Keys == want.Keys;
    assert forall u :: u in next ==> next[u] == want[u];
  }

  /** Once every user is done, the partial map is the cleaned map. */
  lemma CleanDone(start: map<string, seq<int>>, now: int, windowMs: int)
    ensures CleanedPart(start, start.Keys, now, windowMs) == Cleaned(start, now, windowMs)
  {
  }

  /** Nobody is done at the start. */
  lemma CleanNone(start: map<string, seq<int>>, now: int, windowMs: int)
    ensures CleanedPart(start, {}, now, windowMs) == start
  {
    assert CleanedPart(start, {}, now, windowMs).Keys == start.Keys;
  }

  class RateLimiter {
    var requests: map<string, seq<int>>
    const maxRequests: int
    const windowMs: int

    /** No stored list is longer than the limit. */
    ghost predicate Valid()
      reads this
    {
      forall u :: u in requests ==> |requests[u]| <= maxRequests
    }

    constructor(maxRequests: int, windowMs: int)
      ensures Valid()
      ensures this.maxRequests == maxRequests && this.windowMs == windowMs && requests == map[]
    {
      this.maxRequests := maxRequests;
      this.windowMs := windowMs;
      requests := map[];
    }

    /** `cleanup()`: goes through the users one by one, deleting those
        without a recent request and pruning the others. */
    method Cleanup(now: int)
      requires Valid()
      modifies this
      ensures Valid()
      ensures requests == Cleaned(old(requests), now, windowMs)
    {
      ghost var start := requests;
      var pending := requests.Keys;
      CleanNone(start, now, windowMs);
      while pending != {}
        invariant pending <= start.Keys
        invariant requests == CleanedPart(start, start.Keys - pending, now, windowMs)
        invariant forall u :: u in start ==> |start[u]| <= maxRequests
        decreases pending
      {
        var user :| user in pending;
        CleanStep(start, start.Keys - pending, user, now, windowMs);
        var recent := Recent(requests[user], now, windowMs);
        if |recent| == 0 {
          requests := requests - {user};
        } else {
          requests := requests[user := recent];
        }
        assert start.Keys - pending + {user} == start.Keys - (pending - {user});
        pending := pending - {user};
      }
      CleanDone(start, now, windowMs);
      assert start.Keys - {} == start.Keys;
    }

    /** `isAllowed(userId)` at clock `now`; `cleanupAt` is the clock value
        of the random cleanup when it runs after an admitted request. */
    method IsAllowed(user: string, now: int, cleanupAt: Option<int>) returns (allowed: bool)
      requires Valid()
      modifies this
      ensures Valid()
      ensures var a := Admit(old(requests), user, now, maxRequests, windowMs);
        allowed == a.allowed
        && requests == if allowed && cleanupAt.Some? then Cleaned(a.requests, cleanupAt.value, windowMs) else a.requests
    {
      var recent := Recent(Stored(requests, user), now, windowMs);
      if |recent| >= maxRequests {
        return false;
      }
      requests := requests[user := recent + [now]];
      if cleanupAt.Some? {
        Cleanup(cleanupAt.value);
      }
      allowed := true;
    }

    /** The middleware: no user id, nothing happens and `next` is not
        called; otherwise `next` is called iff the request is admitted. */
    method Middleware(fromId: Option<int>, now: int, cleanupAt: Option<int>) returns (callsNext: bool)
      requires Valid()
      modifies this
      ensures Valid()
      ensures fromId.None? ==> !callsNext && requests == old(requests)
      ensures fromId.Some? ==>
        var a := Admit(old(requests), IntToString(fromId.value), now, maxRequests, windowMs);
        callsNext == a.allowed
        && requests == if callsNext && cleanupAt.Some? then Cleaned(a.requests, cleanupAt.value, windowMs) else a.requests
    {
      if fromId.None? {
        return false;
      }
      callsNext := IsAllowed(IntToString(fromId.value), now, cleanupAt);
    }
  }
}
