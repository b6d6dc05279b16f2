/** `memoPromise`: a decorator that caches the promise results of an async method
    per argument list, with a time-to-live, waiters queued on a call still in
    flight, and a periodic cleaner. The clock, the timer and the method being
    wrapped are outside the model: times are parameters, the timer is a flag,
    and a call of the wrapped method is recorded and later settled by
    `SettleOk`/`SettleErr`. */
module MemoPromise {
  import opened Wrappers

  /** A JavaScript value as far as the cache looks at it. */
  datatype JsValue = Undefined | Null | Other(repr: string, truthy: bool)

  predicate Truthy(v: JsValue) {
    v.Other? && v.truthy
  }

  /** `cache_timeout`: milliseconds, or `Infinity`. */
  datatype Timeout = Finite(ms: nat) | Infinite

  /** How a caller's promise settles. */
  datatype Outcome = Resolved(value: JsValue) | Rejected(error: JsValue)

  /** A cache entry: the start time of the call that made it, whether that call is
      still in flight, the callers waiting on it, and what it settled with. */
  datatype Entry = Entry(timestamp: int, inProgress: bool, waiters: seq<nat>, value: JsValue, error: JsValue)

  /** The hit test of a call at `now`. */
  predicate Hit(timeout: Timeout, e: Entry, now: int) {
    e.inProgress || (timeout.Finite? ==> now - e.timestamp < timeout.ms)
  }

  /** The removal test of `cleanCache` at `now`. */
  predicate Expired(timeout: Timeout, e: Entry, now: int) {
    timeout.Finite? && now - e.timestamp > timeout.ms && !e.inProgress
  }

  /** What a hit on a settled entry returns: the stored error when it is truthy,
      else the stored value. */
  function Served(e: Entry): (r: Outcome)
    ensures r.Rejected? <==> Truthy(e.error)
  {
    if Truthy(e.error) then Rejected(e.error) else Resolved(e.value)
  }

  /** The outcome delivered to each waiter, in queue order. */
  function Notify(waiters: seq<nat>, o: Outcome): (r: seq<(nat, Outcome)>)
    ensures |r| == |waiters| && forall i :: 0 <= i < |r| ==> r[i] == (waiters[i], o)
  {
    if waiters == [] then [] else Notify(waiters[..|waiters| - 1], o) + [(waiters[|waiters| - 1], o)]
  }

  /** An in-flight entry is never touched by the cleaner; the cleaner removes an
      entry only after the time-to-live has passed. */
  lemma ExpiredOnlySettled(timeout: Timeout, e: Entry, now: int)
    ensures Expired(timeout, e, now) ==> !e.inProgress && !Hit(timeout, e, now)
    ensures timeout.Infinite? ==> !Expired(timeout, e, now)
  {
  }

  /** The cache of one decorated method. */
  class MemoCache {
    const timeout: Timeout
    const cacheNulls: bool
    const cacheErrors: bool
    var cache: map<string, Entry>
    var timerActive: bool
    var nextCaller: nat
    var invocations: seq<string>
    var delivered: seq<(nat, Outcome)>

    /** The timer runs whenever the cache holds an entry; a zero time-to-live never
        keeps a settled entry; errors and nulls are kept only when configured. */
    ghost predicate Valid()
      reads this
    {
      && (cache != map[] ==> timerActive)
      && (forall k :: k in cache && timeout == Finite(0) ==> cache[k].inProgress)
      && (forall k :: k in cache && !cacheErrors ==> cache[k].error == Undefined)
      && (forall k :: k in cache && !cacheNulls && !cache[k].inProgress ==> cache[k].value != Null)
      && (forall k :: k in cache && cache[k].inProgress ==> cache[k].value == Undefined && cache[k].error == Undefined)
    }

    constructor (timeout: Timeout, cacheNulls: bool, cacheErrors: bool)
      ensures Valid() && cache == map[] && !timerActive && invocations == [] && delivered == []
      ensures this.timeout == timeout && this.cacheNulls == cacheNulls && this.cacheErrors == cacheErrors
    {
      this.timeout := timeout;
      this.cacheNulls := cacheNulls;
      this.cacheErrors := cacheErrors;
      cache := map[];
      timerActive := false;
      nextCaller := 0;
      invocations := [];
      delivered := [];
    }

    /** A call with the argument list serialised to `key`, at `now`. The caller gets
        the next caller number; `immediate` is the settled promise on a hit on a
        settled entry, and `None` when the caller waits. */
    method Call(key: string, now: int) returns (caller: nat, immediate: Option<Outcome>)
      requires Valid()
      modifies this
      ensures Valid() && caller == old(nextCaller) && nextCaller == caller + 1 && delivered == old(delivered)
      ensures old(key in cache && Hit(timeout, cache[key], now) && cache[key].inProgress) ==>
        var e := old(cache[key]);
        && immediate == None && invocations == old(invocations)
        && cache == old(cache)[key := e.(waiters := e.waiters + [caller])]
        && timerActive == old(timerActive)
      ensures old(key in cache && Hit(timeout, cache[key], now) && !cache[key].inProgress) ==>
        && immediate == Some(Served(old(cache[key])))
        && invocations == old(invocations) && cache == old(cache) && timerActive == old(timerActive)
      ensures old(key !in cache || !Hit(timeout, cache[key], now)) ==>
        && immediate == None && invocations == old(invocations) + [key]
        && cache == old(cache)[key := Entry(now, true, [caller], Undefined, Undefined)]
        && timerActive
    {
      caller := nextCaller;
      nextCaller := nextCaller + 1;
      if key in cache && Hit(timeout, cache[key], now) {
        var e := cache[key];
        if e.inProgress {
          cache := cache[key := e.(waiters := e.waiters + [caller])];
          immediate := None;
        } else {
          immediate := Some(Served(e));
        }
      } else {
        cache := cache[key := Entry(now, true, [caller], Undefined, Undefined)];
        invocations := invocations + [key];
        if !timerActive {
          timerActive := true;
        }
        immediate := None;
      }
    }

    /** Hands `o` to every waiter of `key`, in queue order. */
    method NotifyWaiters(waiters: seq<nat>, o: Outcome)
      modifies this
      ensures delivered == old(delivered) + Notify(waiters, o)
      ensures cache == old(cache) && timerActive == old(timerActive) && nextCaller == old(nextCaller)
      ensures invocations == old(invocations)
    {
      var i := 0;
      while i < |waiters|
        invariant 0 <= i <= |waiters|
        invariant delivered == old(delivered) + Notify(waiters[..i], o)
        invariant cache == old(cache) && timerActive == old(timerActive) && nextCaller == old(nextCaller)
        invariant invocations == old(invocations)
      {
        assert waiters[..i + 1][..i] == waiters[..i];
        delivered := delivered + [(waiters[i], o)];
        i := i + 1;
      }
      assert waiters[..i] == waiters;
    }

    /** The wrapped call for `key` resolved with `v`: every waiter gets `v`, then the
        entry is dropped when nothing is to be cached, or kept as settled. */
    method SettleOk(key: string, v: JsValue)
      requires Valid() && key in cache && cache[key].inProgress
      modifies this
      ensures Valid() && delivered == old(delivered) + Notify(old(cache[key].waiters), Resolved(v))
      ensures timerActive == old(timerActive) && nextCaller == old(nextCaller) && invocations == old(invocations)
      ensures timeout == Finite(0) || (!cacheNulls && v == Null) ==> cache == old(cache) - {key}
      ensures !(timeout == Finite(0) || (!cacheNulls && v == Null)) ==>
        cache == old(cache)[key := old(cache[key]).(inProgress := false, value := v)]
    {
      NotifyWaiters(cache[key].waiters, Resolved(v));
      if timeout == Finite(0) || (!cacheNulls && v == Null) {
        cache := cache - {key};
      } else {
        cache := cache[key := cache[key].(inProgress := false, value := v)];
      }
    }

    /** The wrapped call for `key` failed with `err`: every waiter is rejected, then
        the entry is dropped unless errors are cached. */
    method SettleErr(key: string, err: JsValue)
      requires Valid() && key in cache && cache[key].inProgress
      modifies this
      ensures Valid() && delivered == old(delivered) + Notify(old(cache[key].waiters), Rejected(err))
      ensures timerActive == old(timerActive) && nextCaller == old(nextCaller) && invocations == old(invocations)
      ensures timeout == Finite(0) || !cacheErrors ==> cache == old(cache) - {key}
      ensures !(timeout == Finite(0) || !cacheErrors) ==>
        cache == old(cache)[key := old(cache[key]).(inProgress := false, error := err)]
    {
      NotifyWaiters(cache[key].waiters, Rejected(err));
      if timeout == Finite(0) || !cacheErrors {
        cache := cache - {key};
      } else {
        cache := cache[key := cache[key].(inProgress := false, error := err)];
      }
    }

    /** `cleanCache` at `now`: removes exactly the expired entries, keeps the others
        unchanged, and stops the timer once the cache is empty. */
    method CleanCache(now: int)
      requires Valid()
      modifies this
      ensures Valid()
      ensures forall k :: k in cache <==> k in old(cache) && !Expired(timeout, old(cache)[k], now)
      ensures forall k :: k in cache ==> cache[k] == old(cache)[k]
      ensures timerActive == (old(timerActive) && cache != map[])
      ensures nextCaller == old(nextCaller) && invocations == old(invocations) && delivered == old(delivered)
    {
      var keys := cache.Keys;
      while keys != {}
        invariant keys <= old(cache).Keys
        invariant forall k :: k in cache <==> k in old(cache) && (k in keys || !Expired(timeout, old(cache)[k], now))
        invariant forall k :: k in cache ==> cache[k] == old(cache)[k]
        invariant Valid() && timerActive == old(timerActive)
        invariant nextCaller == old(nextCaller) && invocations == old(invocations) && delivered == old(delivered)
        decreases |keys|
      {
        var k :| k in keys;
        if Expired(timeout, cache[k], now) {
          cache := cache - {k};
        }
        keys := keys - {k};
      }
      if cache == map[] && timerActive {
        timerActive := false;
      }
    }
  }
}
