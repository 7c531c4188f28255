/** The per-IP fixed-window rate limit `checkRateLimit` of the instant scan
    route (src/app/api/scan/instant/route.ts): at most three scans per IP
    per window of 86 400 000 ms (a day). The clock `Date.now()` is the
    parameter `now`. */
module RateLimit {
  import opened Wrappers

  const WindowMs: int := 86400000
  const MaxRequests: int := 3

  /** An entry of `rateLimitMap`: requests admitted so far in the window,
      and the time at which the window ends. */
  datatype Window = Window(count: int, resetAt: int)

  /** The answer to one call and the IP's entry afterwards. */
  datatype Decision = Decision(allowed: bool, entry: Window)

  /** One call for an IP whose entry is `e`: a missing or expired entry
      (`resetAt < now`) opens a fresh window with count 1; a live entry at
      the limit refuses and stays as it is; otherwise its count goes up by
      one. */
  function Admit(e: Option<Window>, now: int): (d: Decision)
    ensures (e.None? || 1 <= e.value.count <= MaxRequests) ==> 1 <= d.entry.count <= MaxRequests
    ensures !d.allowed ==> e.Some? && d.entry == e.value
  {
    if e.None? || e.value.resetAt < now then Decision(true, Window(1, now + WindowMs))
    else if e.value.count >= MaxRequests then Decision(false, e.value)
    else Decision(true, e.value.(count := e.value.count + 1))
  }

  /** How many of the calls at `times`, made one after another for one IP
      starting from entry `e`, are admitted. */
  function AdmittedCount(e: Option<Window>, times: seq<int>): nat
    decreases |times|
  {
    if times == [] then 0
    else
      var d := Admit(e, times[0]);
      (if d.allowed then 1 else 0) + AdmittedCount(Some(d.entry), times[1..])
  }

  function Min(a: int, b: int): int {
    if a <= b then a else b
  }

  /** In a live window with `count` admissions, calls up to its end are
      admitted until the count reaches three, and refused after that. */
  lemma {:induction false} LiveWindowAdmits(w: Window, times: seq<int>)
    requires w.count <= MaxRequests
    requires forall i :: 0 <= i < |times| ==> times[i] <= w.resetAt
    ensures AdmittedCount(Some(w), times) == Min(|times|, MaxRequests - w.count)
    decreases |times|
  {
    if times != [] {
      var d := Admit(Some(w), times[0]);
      assert forall i :: 0 <= i < |times[1..]| ==> times[1..][i] == times[i + 1];
      LiveWindowAdmits(d.entry, times[1..]);
    }
  }

  /** At most three calls for one IP are admitted within one window: of
      the calls made while no live window exists and within a day of the
      first of them, exactly the first three (or all, if fewer) succeed. */
  lemma AtMostThreePerWindow(e: Option<Window>, times: seq<int>)
    requires times != []
    requires e.None? || e.value.resetAt < times[0]
    requires forall i :: 0 <= i < |times| ==> times[i] <= times[0] + WindowMs
    ensures AdmittedCount(e, times) == Min(|times|, MaxRequests)
  {
    var d := Admit(e, times[0]);
    assert d == Decision(true, Window(1, times[0] + WindowMs));
    assert forall i :: 0 <= i < |times[1..]| ==> times[1..][i] == times[i + 1];
    LiveWindowAdmits(d.entry, times[1..]);
  }

  /** `rateLimitMap` and the function that consults it. */
  class RateLimiter {
    var windows: map<string, Window>

    /** Every entry has admitted between one and three requests. */
    ghost predicate Valid()
      reads this
    {
      forall ip :: ip in windows ==> 1 <= windows[ip].count <= MaxRequests
    }

    constructor ()
      ensures Valid() && windows == map[]
    {
      windows := map[];
    }

    /** `checkRateLimit(ip)` at time `now`. */
    method CheckRateLimit(ip: string, now: int) returns (allowed: bool)
      requires Valid()
      modifies this
      ensures Valid()
      ensures var d := Admit(if ip in old(windows) then Some(old(windows)[ip]) else None, now);
              allowed == d.allowed && windows == old(windows)[ip := d.entry]
      ensures ip !in old(windows) || old(windows)[ip].resetAt < now ==>
                allowed && windows[ip] == Window(1, now + WindowMs)
      ensures ip in old(windows) && now <= old(windows)[ip].resetAt && old(windows)[ip].count >= MaxRequests ==>
                !allowed && windows == old(windows)
      ensures ip in old(windows) && now <= old(windows)[ip].resetAt && old(windows)[ip].count < MaxRequests ==>
                allowed && windows[ip] == old(windows)[ip].(count := old(windows)[ip].count + 1)
      ensures forall other :: other != ip ==>
                (other in windows <==> other in old(windows))
                && (other in windows ==> windows[other] == old(windows)[other])
    {
      if ip !in windows || windows[ip].resetAt < now {
        windows := windows[ip := Window(1, now + WindowMs)];
        return true;
      }
      var entry := windows[ip];
      if entry.count >= MaxRequests {
        return false;
      }
      windows := windows[ip := entry.(count := entry.count + 1)];
      return true;
    }
  }
}
