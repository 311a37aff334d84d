/** The timeout settings record (`timeoutImpl`) of the `requests` and the
    `http` packages. Every method has a value receiver: setters return a
    changed copy and leave the receiver as it was. Durations are Go
    `time.Duration` values, nanoseconds in an `int64`. */
module Timeouts {

  const Second: int := 1_000_000_000
  const DefaultMaxIdleConnectionsPerHost: int := 10
  const DefaultResponseTimeout: int := 5 * Second
  const DefaultRequestTimeout: int := 5 * Second

  datatype Timeout = Timeout(
    responseTimeout: int,
    requestTimeout: int,
    maxIdleConnections: int,
    disableTimeouts: bool)
  {
    /** `GetRequestTimeout()`. A stored value equal to the default counts as
        "not set": it reads as 0 when timeouts are disabled. */
    function GetRequestTimeout(): (d: int)
      ensures !disableTimeouts ==> d == requestTimeout
      ensures disableTimeouts ==> d == if requestTimeout == DefaultRequestTimeout then 0 else requestTimeout
    {
      if requestTimeout != DefaultRequestTimeout then requestTimeout
      else if disableTimeouts then 0
      else DefaultRequestTimeout
    }

    /** `GetResponseTimeout()`, by the same rule on the response field. */
    function GetResponseTimeout(): (d: int)
      ensures !disableTimeouts ==> d == responseTimeout
      ensures disableTimeouts ==> d == if responseTimeout == DefaultResponseTimeout then 0 else responseTimeout
    {
      if responseTimeout != DefaultResponseTimeout then responseTimeout
      else if disableTimeouts then 0
      else DefaultResponseTimeout
    }

    /** `GetMaxIdleConnections()`: both branches of the comparison with the
        default return the stored field, so it is returned as it is. */
    function GetMaxIdleConnections(): (n: int)
      ensures n == maxIdleConnections
    {
      if maxIdleConnections != DefaultMaxIdleConnectionsPerHost then maxIdleConnections
      else DefaultMaxIdleConnectionsPerHost
    }

    /** `Disable()` (`requests` package). */
    function Disable(): (t: Timeout)
      ensures t.disableTimeouts
      ensures t.requestTimeout == requestTimeout && t.responseTimeout == responseTimeout
      ensures t.maxIdleConnections == maxIdleConnections
    {
      this.(disableTimeouts := true)
    }

    /** `Enable()` (`requests` package). */
    function Enable(): (t: Timeout)
      ensures !t.disableTimeouts
      ensures t.requestTimeout == requestTimeout && t.responseTimeout == responseTimeout
      ensures t.maxIdleConnections == maxIdleConnections
    {
      this.(disableTimeouts := false)
    }

    /** `Disable(disable bool)` (`http` package): the flag becomes exactly `disable`. */
    function SetDisabled(disable: bool): (t: Timeout)
      ensures t.disableTimeouts == disable
      ensures t.requestTimeout == requestTimeout && t.responseTimeout == responseTimeout
      ensures t.maxIdleConnections == maxIdleConnections
    {
      this.(disableTimeouts := disable)
    }

    /** `SetRequestTimeout(d)` */
    function SetRequestTimeout(d: int): (t: Timeout)
      ensures t.requestTimeout == d
      ensures t.responseTimeout == responseTimeout && t.maxIdleConnections == maxIdleConnections
      ensures t.disableTimeouts == disableTimeouts
    {
      this.(requestTimeout := d)
    }

    /** `SetResponseTimeout(d)` */
    function SetResponseTimeout(d: int): (t: Timeout)
      ensures t.responseTimeout == d
      ensures t.requestTimeout == requestTimeout && t.maxIdleConnections == maxIdleConnections
      ensures t.disableTimeouts == disableTimeouts
    {
      this.(responseTimeout := d)
    }

    /** `SetMaxIdleConnections(n)` */
    function SetMaxIdleConnections(n: int): (t: Timeout)
      ensures t.maxIdleConnections == n
      ensures t.requestTimeout == requestTimeout && t.responseTimeout == responseTimeout
      ensures t.disableTimeouts == disableTimeouts
    {
      this.(maxIdleConnections := n)
    }
  }

  /** `newTimeouts()`: both timeouts at 5 s, 10 idle connections, enabled. */
  function NewTimeouts(): (t: Timeout)
    ensures t.GetRequestTimeout() == 5 * Second && t.GetResponseTimeout() == 5 * Second
    ensures t.GetMaxIdleConnections() == 10 && !t.disableTimeouts
  {
    Timeout(DefaultResponseTimeout, DefaultRequestTimeout, DefaultMaxIdleConnectionsPerHost, false)
  }

  /** A configured request timeout other than the default is effective
      whatever the flag says; the default reads as 0 exactly when disabled. */
  lemma RequestTimeoutAfterSet(t: Timeout, d: int)
    ensures d != DefaultRequestTimeout ==> t.SetRequestTimeout(d).GetRequestTimeout() == d
    ensures d == DefaultRequestTimeout ==>
      t.SetRequestTimeout(d).GetRequestTimeout() == if t.disableTimeouts then 0 else DefaultRequestTimeout
  {
  }

  /** The same rule for the response timeout. */
  lemma ResponseTimeoutAfterSet(t: Timeout, d: int)
    ensures d != DefaultResponseTimeout ==> t.SetResponseTimeout(d).GetResponseTimeout() == d
    ensures d == DefaultResponseTimeout ==>
      t.SetResponseTimeout(d).GetResponseTimeout() == if t.disableTimeouts then 0 else DefaultResponseTimeout
  {
  }

  /** Disabling zeroes an effective timeout exactly when its stored value is
      the default or already 0. */
  lemma DisabledTimeoutIsZero(t: Timeout)
    ensures t.Disable().GetRequestTimeout() == 0 <==> t.requestTimeout in {0, DefaultRequestTimeout}
    ensures t.Disable().GetResponseTimeout() == 0 <==> t.responseTimeout in {0, DefaultResponseTimeout}
  {
  }

  /** `Disable` is idempotent and `Enable` undoes it on an enabled record;
      the `http` variant's `Disable(b)` is `Disable` or `Enable`. */
  lemma DisableEnableLaws(t: Timeout)
    ensures t.Disable().Disable() == t.Disable()
    ensures !t.disableTimeouts ==> t.Disable().Enable() == t
    ensures t.SetDisabled(true) == t.Disable() && t.SetDisabled(false) == t.Enable()
  {
  }

  /** The setters' changes are independent of one another and of the flag. */
  lemma SettersCommute(t: Timeout, req: int, resp: int, n: int)
    ensures t.SetRequestTimeout(req).SetResponseTimeout(resp) == t.SetResponseTimeout(resp).SetRequestTimeout(req)
    ensures t.SetRequestTimeout(req).SetMaxIdleConnections(n) == t.SetMaxIdleConnections(n).SetRequestTimeout(req)
    ensures t.SetRequestTimeout(req).Disable() == t.Disable().SetRequestTimeout(req)
    ensures t.SetResponseTimeout(resp).SetMaxIdleConnections(n) == t.SetMaxIdleConnections(n).SetResponseTimeout(resp)
    ensures t.SetResponseTimeout(resp).Disable() == t.Disable().SetResponseTimeout(resp)
    ensures t.SetMaxIdleConnections(n).Disable() == t.Disable().SetMaxIdleConnections(n)
    ensures t.SetRequestTimeout(req).Enable() == t.Enable().SetRequestTimeout(req)
    ensures t.SetResponseTimeout(resp).Enable() == t.Enable().SetResponseTimeout(resp)
    ensures t.SetMaxIdleConnections(n).Enable() == t.Enable().SetMaxIdleConnections(n)
  {
  }
}
