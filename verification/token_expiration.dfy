/** The session-expiry warning (src/components/TokenExpirationHandler/TokenExpirationHandler.tsx).
    Whole minutes left are counted down from the JWT `exp` claim; a warning
    shows while between one and four whole minutes remain. The clock, the
    interval timer and jwt-decode are inputs. */
module TokenExpiration {
  import opened Wrappers
  import opened Browser
  import opened Strings

  const MsPerMinute: int := 60000
  const WarningMinutes: int := 5

  /** `Math.max(0, expirationTime - now)`: milliseconds left, never negative. */
  function RemainingMs(expirationMs: int, nowMs: int): (r: nat)
    ensures nowMs >= expirationMs ==> r == 0
    ensures nowMs < expirationMs ==> nowMs + r == expirationMs
  {
    if expirationMs - nowMs > 0 then expirationMs - nowMs else 0
  }

  /** `Math.floor(remaining / 60000)`: the whole minutes left. */
  function RemainingMinutes(expirationMs: int, nowMs: int): (m: nat)
    ensures m * MsPerMinute <= RemainingMs(expirationMs, nowMs) < (m + 1) * MsPerMinute
  {
    RemainingMs(expirationMs, nowMs) / MsPerMinute
  }

  /** `remainingMinutes < 5 && remainingMinutes > 0`. */
  predicate ShowWarning(minutes: int) {
    minutes < WarningMinutes && minutes > 0
  }

  /** The warning shows exactly while at least one and fewer than five whole
      minutes remain, i.e. while 60 000 <= exp*1000 - now < 300 000. */
  lemma WarningWindow(expirationMs: int, nowMs: int)
    ensures ShowWarning(RemainingMinutes(expirationMs, nowMs)) <==>
      MsPerMinute <= expirationMs - nowMs < WarningMinutes * MsPerMinute
  {
  }

  /** Once the expiry instant has passed, no minutes remain and no warning shows. */
  lemma ExpiredShowsNothing(expirationMs: int, nowMs: int)
    requires nowMs >= expirationMs
    ensures RemainingMinutes(expirationMs, nowMs) == 0
    ensures !ShowWarning(RemainingMinutes(expirationMs, nowMs))
  {
  }

  /** As the clock advances, the minutes left never go up. */
  lemma MinutesNonIncreasing(expirationMs: int, now1: int, now2: int)
    requires now1 <= now2
    ensures RemainingMinutes(expirationMs, now2) <= RemainingMinutes(expirationMs, now1)
  {
  }

  /** The `timeRemaining` state: null, a number of minutes, or NaN when the
      decoded token has no `exp` (undefined * 1000 is NaN). */
  datatype TimeRemaining = Null | Minutes(n: int) | NotANumber

  /** "Your session will expire in N minute(s).": "minute" only for exactly one. */
  function Message(t: TimeRemaining): (msg: string)
    requires !t.Null?
    ensures t == Minutes(1) ==> msg == "Your session will expire in 1 minute."
    ensures t.Minutes? && t.n != 1 ==>
      msg == "Your session will expire in " + IntToString(t.n) + " minutes."
  {
    var count := if t.Minutes? then IntToString(t.n) else "NaN";
    "Your session will expire in " + count + " minute" + (if t != Minutes(1) then "s" else "") + "."
  }

  /** The render: nothing unless the warning is on and the time is not null. */
  function Render(showWarning: bool, t: TimeRemaining): (r: Option<string>)
    ensures r.Some? <==> showWarning && !t.Null?
    ensures r.Some? ==> r.value == Message(t)
  {
    if !showWarning || t.Null? then None else Some(Message(t))
  }

  /** The component's state hooks and the interval it runs. `ticking` says
      an interval is installed; `expirationMs` is the expiry instant its
      closure captured (None for NaN). */
  class ExpirationHandler {
    var showWarning: bool
    var timeRemaining: TimeRemaining
    var ticking: bool
    var expirationMs: Option<int>

    ghost predicate Valid()
      reads this
    {
      (timeRemaining.Minutes? ==> timeRemaining.n >= 0) &&
      (showWarning ==> timeRemaining.Minutes? && ShowWarning(timeRemaining.n))
    }

    constructor ()
      ensures Valid()
      ensures !showWarning && timeRemaining == Null && !ticking
    {
      showWarning, timeRemaining, ticking, expirationMs := false, Null, false, None;
    }

    /** updateTimeRemaining, run on each interval tick. */
    method Tick(nowMs: int)
      requires Valid() && ticking
      modifies this
      ensures Valid()
      ensures ticking && expirationMs == old(expirationMs)
      ensures expirationMs.Some? ==>
        timeRemaining == Minutes(RemainingMinutes(expirationMs.value, nowMs)) &&
        showWarning == ShowWarning(RemainingMinutes(expirationMs.value, nowMs))
      ensures expirationMs.None? ==> timeRemaining == NotANumber && !showWarning
    {
      match expirationMs {
        case Some(expiration) =>
          var remaining := RemainingMs(expiration, nowMs);
          var remainingMinutes := remaining / MsPerMinute;
          timeRemaining := Minutes(remainingMinutes);
          showWarning := remainingMinutes < WarningMinutes && remainingMinutes > 0;
        case None =>
          timeRemaining := NotANumber;
          showWarning := false;
      }
    }

    /** The effect, run when the token changes: the previous interval is
        cleared; with no token the warning hides and the time is null; a
        token that cannot be decoded leaves the state as it was; otherwise
        the expiry instant is captured, one update runs at once and an
        interval is installed. */
    method OnTokenChange(tokenId: Option<string>, decode: string -> Option<Claims>, nowMs: int)
      requires Valid()
      modifies this
      ensures Valid()
      ensures !Truthy(tokenId) ==> !showWarning && timeRemaining == Null && !ticking
      ensures Truthy(tokenId) && decode(tokenId.value).None? ==>
        !ticking && showWarning == old(showWarning) && timeRemaining == old(timeRemaining)
      ensures Truthy(tokenId) && decode(tokenId.value).Some? ==>
        ticking &&
        expirationMs == (match decode(tokenId.value).value.exp
                         case Some(exp) => Some(exp * 1000)
                         case None => None) &&
        (expirationMs.Some? ==>
          timeRemaining == Minutes(RemainingMinutes(expirationMs.value, nowMs)) &&
          showWarning == ShowWarning(RemainingMinutes(expirationMs.value, nowMs))) &&
        (expirationMs.None? ==> timeRemaining == NotANumber && !showWarning)
    {
      ticking := false;
      if !Truthy(tokenId) {
        showWarning := false;
        timeRemaining := Null;
        return;
      }
      var decoded := decode(tokenId.value);
      if decoded.None? {
        return;
      }
      expirationMs := match decoded.value.exp
                      case Some(exp) => Some(exp * 1000)
                      case None => None;
      ticking := true;
      Tick(nowMs);
    }

    /** What the component renders now. */
    function View(): (r: Option<string>)
      reads this
      requires Valid()
      ensures r.Some? ==> showWarning && timeRemaining.Minutes? && 0 < timeRemaining.n < WarningMinutes
    {
      Render(showWarning, timeRemaining)
    }
  }
}
