/**
 * CacheRateLimiter over an abstract cache backend: per key, a hit counter and
 * the time its window closes. A window is open while the clock has not passed
 * its end (the end itself is still inside the window).
 */
module RateLimiter {
  import opened Errors

  datatype Window = Window(hits: nat, endsAt: int)
  type Windows = map<string, Window>

  predicate IsOpen(ws: Windows, key: string, now: int)
  {
    key in ws && now <= ws[key].endsAt
  }

  /** The attempts counted for `key`: the hits of its open window, zero once it closed. */
  function Attempts(ws: Windows, key: string, now: int): nat
  {
    if IsOpen(ws, key, now) then ws[key].hits else 0
  }

  /** isLocked (the backend's tooManyAttempts): the open window already holds `maxAttempts` hits. */
  predicate IsLocked(ws: Windows, key: string, maxAttempts: int, now: int)
  {
    IsOpen(ws, key, now) && ws[key].hits >= maxAttempts
  }

  /** availableIn: seconds until the window of `key` closes. */
  function AvailableIn(ws: Windows, key: string, now: int): nat
  {
    if key in ws && ws[key].endsAt > now then ws[key].endsAt - now else 0
  }

  /**
   * hit: count one attempt. A closed window is replaced by one that closes
   * `decay` seconds from now; the backend stores nothing for a non-positive decay.
   */
  function Hit(ws: Windows, key: string, decay: int, now: int): (r: Windows)
    ensures forall k :: k != key ==> (k in r <==> k in ws) && (k in r ==> r[k] == ws[k])
    ensures IsOpen(ws, key, now) || decay > 0 ==> Attempts(r, key, now) == Attempts(ws, key, now) + 1
    ensures IsOpen(ws, key, now) ==> r[key].endsAt == ws[key].endsAt
    ensures !IsOpen(ws, key, now) && decay > 0 ==> r[key].endsAt == now + decay
    ensures !IsOpen(ws, key, now) && decay <= 0 ==> Attempts(r, key, now) == 0
  {
    if IsOpen(ws, key, now) then ws[key := ws[key].(hits := ws[key].hits + 1)]
    else if decay > 0 then ws[key := Window(1, now + decay)]
    else ws
  }

  /** clear: forget everything about `key` and nothing else. */
  function Cleared(ws: Windows, key: string): (r: Windows)
    ensures key !in r
    ensures forall k :: k != key ==> (k in r <==> k in ws) && (k in r ==> r[k] == ws[k])
  {
    ws - {key}
  }

  /**
   * guardTooManyAttempts: raise a LockoutException while locked; its unlock
   * time (now plus availableIn) is the end of the open window.
   */
  function GuardTooManyAttempts(ws: Windows, key: string, maxAttempts: int, now: int): (r: Result<()>)
    ensures r.Err? <==> IsLocked(ws, key, maxAttempts, now)
    ensures r.Err? ==> r.error == Lockout(ws[key].endsAt) && now <= r.error.unlockAt
  {
    if IsLocked(ws, key, maxAttempts, now) then Err(Lockout(now + AvailableIn(ws, key, now))) else Ok(())
  }

  /** attempt: the guard, then a hit; on success the new backend state. */
  function Attempted(ws: Windows, key: string, maxAttempts: int, decay: int, now: int): (r: Result<Windows>)
    ensures r.Err? <==> IsLocked(ws, key, maxAttempts, now)
    ensures r.Err? ==> r.error == Lockout(ws[key].endsAt)
    ensures r.Ok? ==> r.value == Hit(ws, key, decay, now)
  {
    match GuardTooManyAttempts(ws, key, maxAttempts, now)
    case Err(e) => Err(e)
    case Ok(_) => Ok(Hit(ws, key, decay, now))
  }

  /** What limit leaves behind: the backend, the result, and whether the callback ran. */
  datatype LimitStep<T> = LimitStep(windows: Windows, result: Result<T>, invoked: bool)

  /**
   * limit: attempt, then the callback (given as what it returns or throws),
   * then clear the key, but only when the callback returned normally.
   */
  function Limited<T>(ws: Windows, key: string, maxAttempts: int, decay: int, now: int, callback: Result<T>): (r: LimitStep<T>)
    ensures r.invoked <==> !IsLocked(ws, key, maxAttempts, now)
    ensures !r.invoked ==> r.windows == ws && r.result == Err(Lockout(ws[key].endsAt))
    ensures r.invoked ==> r.result == callback
    ensures r.invoked && callback.Ok? ==> r.windows == Cleared(Hit(ws, key, decay, now), key)
    ensures r.invoked && callback.Err? ==> r.windows == Hit(ws, key, decay, now)
  {
    match Attempted(ws, key, maxAttempts, decay, now)
    case Err(e) => LimitStep(ws, Err(e), false)
    case Ok(hit) => LimitStep(if callback.Ok? then Cleared(hit, key) else hit, callback, true)
  }

  /** The backend after one attempt at each of `times`, in order. */
  function AttemptEach(ws: Windows, key: string, maxAttempts: int, decay: int, times: seq<int>): Windows
    decreases |times|
  {
    if times == [] then ws
    else
      var prev := AttemptEach(ws, key, maxAttempts, decay, times[..|times| - 1]);
      var a := Attempted(prev, key, maxAttempts, decay, times[|times| - 1]);
      if a.Ok? then a.value else prev
  }

  /** The attempts made inside one window, starting from a closed one. */
  predicate WithinOneWindow(ws: Windows, key: string, decay: int, times: seq<int>)
  {
    decay > 0 && |times| > 0 && !IsOpen(ws, key, times[0]) &&
    forall i :: 0 <= i < |times| ==> times[0] <= times[i] <= times[0] + decay
  }

  /** Up to `maxAttempts` attempts inside one window all pass, and each adds one hit to it. */
  lemma {:induction false} AttemptsFillWindow(ws: Windows, key: string, maxAttempts: int, decay: int, times: seq<int>)
    requires WithinOneWindow(ws, key, decay, times) && |times| <= maxAttempts
    ensures var r := AttemptEach(ws, key, maxAttempts, decay, times);
      key in r && r[key] == Window(|times|, times[0] + decay)
  {
    var init := times[..|times| - 1];
    var now := times[|times| - 1];
    if |times| == 1 {
      assert init == [];
      assert !IsLocked(ws, key, maxAttempts, now);
    } else {
      assert init[0] == times[0];
      assert forall i :: 0 <= i < |init| ==> init[i] == times[i];
      AttemptsFillWindow(ws, key, maxAttempts, decay, init);
      var prev := AttemptEach(ws, key, maxAttempts, decay, init);
      assert IsOpen(prev, key, now) && !IsLocked(prev, key, maxAttempts, now);
    }
  }

  /**
   * The attempt after `maxAttempts` of them inside one window is locked out
   * until the window that the first attempt opened closes.
   */
  lemma {:induction false} LockoutAfterMaxAttempts(ws: Windows, key: string, maxAttempts: int, decay: int, times: seq<int>, now: int)
    requires WithinOneWindow(ws, key, decay, times) && |times| == maxAttempts
    requires times[0] <= now <= times[0] + decay
    ensures GuardTooManyAttempts(AttemptEach(ws, key, maxAttempts, decay, times), key, maxAttempts, now)
      == Err(Lockout(times[0] + decay))
  {
    AttemptsFillWindow(ws, key, maxAttempts, decay, times);
  }

  /** Once the window has passed, counting starts again from a fresh window. */
  lemma {:induction false} CountingRestartsAfterWindow(ws: Windows, key: string, maxAttempts: int, decay: int, times: seq<int>, now: int)
    requires WithinOneWindow(ws, key, decay, times) && |times| <= maxAttempts
    requires now > times[0] + decay
    ensures var r := AttemptEach(ws, key, maxAttempts, decay, times);
      Attempts(r, key, now) == 0 && !IsLocked(r, key, maxAttempts, now) &&
      Attempted(r, key, maxAttempts, decay, now) == Ok(r[key := Window(1, now + decay)])
  {
    AttemptsFillWindow(ws, key, maxAttempts, decay, times);
  }

  /** The cache-backed limiter. */
  class CacheRateLimiter {
    var windows: Windows

    constructor ()
      ensures windows == map[]
    {
      windows := map[];
    }

    /** attempt: raise a lockout or count a hit. */
    method Attempt(key: string, maxAttempts: int, decay: int, now: int) returns (r: Result<()>)
      modifies this
      ensures r.Err? <==> Attempted(old(windows), key, maxAttempts, decay, now).Err?
      ensures r.Err? ==> r.error == Attempted(old(windows), key, maxAttempts, decay, now).error
      ensures windows == if r.Ok? then Attempted(old(windows), key, maxAttempts, decay, now).value else old(windows)
    {
      r := GuardTooManyAttempts(windows, key, maxAttempts, now);
      if r.Ok? {
        windows := Hit(windows, key, decay, now);
      }
    }

    /** clear: reset the counter of `key`. */
    method Clear(key: string)
      modifies this
      ensures windows == Cleared(old(windows), key)
    {
      windows := windows - {key};
    }

    /** limit, with the callback given as what it returns or throws when it runs. */
    method Limit<T>(key: string, maxAttempts: int, decay: int, now: int, callback: Result<T>) returns (r: Result<T>)
      modifies this
      ensures var step := Limited(old(windows), key, maxAttempts, decay, now, callback);
        windows == step.windows && r == step.result
    {
      var attempt := Attempt(key, maxAttempts, decay, now);
      if attempt.Err? {
        return Err(attempt.error);
      }
      r := callback;
      if r.Ok? {
        Clear(key);
      }
    }
  }
}
