/** The singleton database connection: one shared flag, switched by
    `connect` and `disconnect`, each of which refuses a redundant call. */
module DatabaseConnection {

  /** A new instance is disconnected. */
  const Initial: bool := false

  datatype ConnectOutcome = NowConnected | AlreadyConnected

  datatype DisconnectOutcome = NowDisconnected | NotConnected

  /** `connect`: afterwards the connection is always open; the outcome says
      whether it already was. */
  function Connect(connected: bool): (r: (bool, ConnectOutcome))
    ensures r.0
    ensures r.1 == AlreadyConnected <==> connected
  {
    if !connected then (true, NowConnected) else (true, AlreadyConnected)
  }

  /** `disconnect`: afterwards the connection is always closed; the outcome
      says whether there was one to close. */
  function Disconnect(connected: bool): (r: (bool, DisconnectOutcome))
    ensures !r.0
    ensures r.1 == NotConnected <==> !connected
  {
    if connected then (false, NowDisconnected) else (false, NotConnected)
  }

  /** Connecting and disconnecting are each idempotent on the flag, and
      undo one another. */
  lemma ConnectDisconnectLaws(connected: bool)
    ensures Connect(Connect(connected).0).0 == Connect(connected).0
    ensures Disconnect(Disconnect(connected).0).0 == Disconnect(connected).0
    ensures Disconnect(Connect(connected).0).0 == Initial
  {
  }

  /** The demo through two references: connect, connect (refused),
      disconnect, connect ends connected. */
  lemma SharedInstanceScenario()
    ensures
      var c1 := Connect(Initial);
      var c2 := Connect(c1.0);
      var d := Disconnect(c2.0);
      var c3 := Connect(d.0);
      && c1.1 == NowConnected && c2.1 == AlreadyConnected
      && d.1 == NowDisconnected && c3 == (true, NowConnected)
  {
  }
}
