/** Pessimistic disconnect handling: the listener run on every pool checkout (ichnaea/db.py). */
module Checkout {
  import opened Errors

  /** The MySQL client errors that mean the connection itself is gone. */
  datatype ClientError =
    | ConnectionRefused          // CR_CONN_HOST_ERROR
    | ServerGoneAway             // CR_SERVER_GONE_ERROR
    | LostConnection             // CR_SERVER_LOST, during a query
    | LostConnectionExtended     // CR_SERVER_LOST_EXTENDED, with the host and system error

  /** MySQL's numeric code for each of them. */
  function ClientCode(e: ClientError): int
  {
    match e
    case ConnectionRefused => 2003
    case ServerGoneAway => 2006
    case LostConnection => 2013
    case LostConnectionExtended => 2055
  }

  /** The codes the listener turns into a disconnection. */
  const DisconnectCodes: set<int> := {2003, 2006, 2013, 2055}

  /** What `ping()` did: returned, or raised an error. */
  datatype Ping = PingOk | PingRaised(error: Error)

  /** What the listener does: return normally (the connection is handed out), or raise. */
  datatype ListenerResult = Proceed | Raise(error: Error)

  /** An operational error the pool should answer by discarding the connection and retrying. */
  predicate IsDisconnect(e: Error)
  {
    e.OperationalError? && e.code in DisconnectCodes
  }

  /** The checkout listener, given the outcome of its ping. */
  function CheckConnection(ping: Ping): (r: ListenerResult)
    ensures r.Proceed? <==> ping.PingOk?
    ensures r == Raise(DisconnectionError) <==>
              ping.PingRaised? && (IsDisconnect(ping.error) || ping.error == DisconnectionError)
    ensures ping.PingRaised? && !IsDisconnect(ping.error) ==> r == Raise(ping.error)
  {
    match ping
    case PingOk => Proceed
    case PingRaised(e) =>
      if e.OperationalError? && e.code in DisconnectCodes then Raise(DisconnectionError)
      else Raise(e)
  }

  /** An operational error raised by the ping becomes a disconnection, for the pool to retry,
      exactly when its code is that of one of the four named client errors. */
  lemma {:induction false} DisconnectIffClientError(code: int)
    ensures CheckConnection(PingRaised(OperationalError(code))) == Raise(DisconnectionError) <==>
            exists e: ClientError :: ClientCode(e) == code
  {
    if code in DisconnectCodes {
      var e := if code == 2003 then ConnectionRefused
               else if code == 2006 then ServerGoneAway
               else if code == 2013 then LostConnection
               else LostConnectionExtended;
      assert ClientCode(e) == code;
    }
  }
}
