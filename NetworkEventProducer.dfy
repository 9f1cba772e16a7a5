/** The network event producer: a small state machine over the reachability
    status that tells its listener when connectivity changes category. */
module Network {
  import opened Common

  /** The connection categories of the reachability monitor. */
  datatype Connection = NoConnection | Wifi | Cellular

  /** The events the producer emits. */
  datatype NetworkEvent = NetworkChanged | ConnectionRetrieved | ConnectionLost

  /** The event a status change from `last` to `current` emits, if any. */
  function EventFor(last: Connection, current: Connection): (r: Option<NetworkEvent>)
    ensures r == None <==> current == last
    ensures r == Some(ConnectionLost) <==> current != last && current == NoConnection
    ensures r == Some(ConnectionRetrieved) <==> current != last && last == NoConnection
    ensures r == Some(NetworkChanged) <==>
              current != last && last != NoConnection && current != NoConnection
  {
    if current != last then
      if current == NoConnection then Some(ConnectionLost)
      else if last == NoConnection then Some(ConnectionRetrieved)
      else Some(NetworkChanged)
    else None
  }

  /** The platform reachability monitor; its connection is changed by the
      operating system. */
  class Reachability {
    var connection: Connection

    constructor (connection: Connection)
      ensures this.connection == connection
    {
      this.connection := connection;
    }

    /** The operating system reports a new connection. */
    method SetConnection(c: Connection)
      modifies this
      ensures connection == c
    {
      connection := c;
    }
  }

  class NetworkEventProducer {
    /** The monitor to watch; there may be none. */
    const reachability: Reachability?
    /** When the connection was lost, if it is lost. */
    var connectionLossDate: Option<real>
    /** Whether the producer is subscribed to reachability notifications. */
    var listening: bool
    /** The connection observed last. */
    var lastConnection: Connection
    /** The events delivered to the listener, in order. */
    var delivered: seq<NetworkEvent>

    /** A producer only listens when it has a monitor to listen to. */
    ghost predicate Valid()
      reads this
    {
      listening ==> reachability != null
    }

    /** Starts from the monitor's connection, or from no connection without a
        monitor, and records a loss date exactly when that is no connection.
        `now` is the clock reading at creation. */
    constructor (reachability: Reachability?, now: real)
      ensures Valid()
      ensures this.reachability == reachability
      ensures lastConnection == (if reachability == null then NoConnection else reachability.connection)
      ensures connectionLossDate == (if lastConnection == NoConnection then Some(now) else None)
      ensures !listening && delivered == []
    {
      this.reachability := reachability;
      lastConnection := if reachability == null then NoConnection else reachability.connection;
      listening := false;
      delivered := [];
      new;
      if lastConnection == NoConnection {
        connectionLossDate := Some(now);
      } else {
        connectionLossDate := None;
      }
    }

    /** Subscribes to the monitor, refreshing the last connection; does
        nothing when already listening or without a monitor. */
    method StartProducingEvents()
      requires Valid()
      modifies this`listening, this`lastConnection
      ensures Valid()
      ensures old(listening) || reachability == null ==>
                listening == old(listening) && lastConnection == old(lastConnection)
      ensures !old(listening) && reachability != null ==>
                listening && lastConnection == reachability.connection
    {
      if listening || reachability == null {
        return;
      }
      lastConnection := reachability.connection;
      listening := true;
    }

    /** Unsubscribes from the monitor; does nothing unless listening. */
    method StopProducingEvents()
      requires Valid()
      modifies this`listening
      ensures Valid()
      ensures !listening
    {
      if !listening || reachability == null {
        return;
      }
      listening := false;
    }

    /** Handles a reachability notification observed at time `now`: on a change
        of category emits exactly one event, keeps the loss date in step, and
        remembers the new connection; otherwise changes nothing. */
    method ReachabilityStatusChanged(now: real)
      requires Valid()
      modifies this`lastConnection, this`connectionLossDate, this`delivered
      ensures Valid()
      ensures reachability == null || reachability.connection == old(lastConnection) ==>
                lastConnection == old(lastConnection)
                && connectionLossDate == old(connectionLossDate)
                && delivered == old(delivered)
      ensures reachability != null ==>
                var current := reachability.connection;
                && lastConnection == current
                && delivered == old(delivered) + ToSeq(EventFor(old(lastConnection), current))
                && connectionLossDate ==
                     (if current == old(lastConnection) then old(connectionLossDate)
                      else if current == NoConnection then Some(now)
                      else if old(lastConnection) == NoConnection then None
                      else old(connectionLossDate))
    {
      if reachability == null {
        return;
      }
      var newConnection := reachability.connection;
      if newConnection != lastConnection {
        if newConnection == NoConnection {
          connectionLossDate := Some(now);
          delivered := delivered + [ConnectionLost];
        } else if lastConnection == NoConnection {
          delivered := delivered + [ConnectionRetrieved];
          connectionLossDate := None;
        } else {
          delivered := delivered + [NetworkChanged];
        }
        lastConnection := newConnection;
      }
    }
  }

  // ---------------------------------------------------------------------
  // Sequences of observations

  /** The events emitted while observing the connections in order, starting
      from `last`. */
  function EventsFor(last: Connection, observed: seq<Connection>): seq<NetworkEvent>
    decreases |observed|
  {
    if observed == [] then []
    else ToSeq(EventFor(last, observed[0])) + EventsFor(observed[0], observed[1..])
  }

  /** A well-formed connectivity story: losses only while connected,
      retrievals only while disconnected, network changes only while
      connected. */
  predicate Alternating(events: seq<NetworkEvent>, disconnected: bool)
    decreases |events|
  {
    events == [] ||
    match events[0]
    case NetworkChanged => !disconnected && Alternating(events[1..], false)
    case ConnectionLost => !disconnected && Alternating(events[1..], true)
    case ConnectionRetrieved => disconnected && Alternating(events[1..], false)
  }

  /** The listener never hears two losses without a retrieval between them,
      nor a retrieval or a network change while disconnected. */
  lemma {:induction false} EventsAlternate(last: Connection, observed: seq<Connection>)
    ensures Alternating(EventsFor(last, observed), last == NoConnection)
    decreases |observed|
  {
    if observed != [] {
      var c := observed[0];
      EventsAlternate(c, observed[1..]);
      var rest := EventsFor(c, observed[1..]);
      var e := EventFor(last, c);
      if e.Some? {
        assert EventsFor(last, observed) == [e.value] + rest;
        assert ([e.value] + rest)[1..] == rest;
      } else {
        assert EventsFor(last, observed) == rest;
      }
    }
  }

  /** Counts the observations that differ from the one before. */
  function Changes(last: Connection, observed: seq<Connection>): nat
    decreases |observed|
  {
    if observed == [] then 0
    else (if observed[0] != last then 1 else 0) + Changes(observed[0], observed[1..])
  }

  /** Exactly one event per real change of category. */
  lemma {:induction false} OneEventPerChange(last: Connection, observed: seq<Connection>)
    ensures |EventsFor(last, observed)| == Changes(last, observed)
    decreases |observed|
  {
    if observed != [] {
      OneEventPerChange(observed[0], observed[1..]);
    }
  }

  // ---------------------------------------------------------------------
  // The producer's unit tests as scenarios

  /** Starting offline, a switch to wifi is a retrieval. */
  method RetrievedScenario() returns (events: seq<NetworkEvent>)
    ensures events == [ConnectionRetrieved]
  {
    var reachability := new Reachability(NoConnection);
    var producer := new NetworkEventProducer(reachability, 0.0);
    producer.StartProducingEvents();
    reachability.SetConnection(Wifi);
    producer.ReachabilityStatusChanged(1.0);
    events := producer.delivered;
  }

  /** A notification that repeats the current connection emits nothing. */
  method UnchangedScenario() returns (events: seq<NetworkEvent>)
    ensures events == []
  {
    var reachability := new Reachability(NoConnection);
    var producer := new NetworkEventProducer(reachability, 0.0);
    producer.StartProducingEvents();
    reachability.SetConnection(reachability.connection);
    producer.ReachabilityStatusChanged(1.0);
    events := producer.delivered;
  }

  /** Going from wifi to no connection is a loss, with its date recorded. */
  method LostScenario() returns (events: seq<NetworkEvent>, lossDate: Option<real>)
    ensures events == [ConnectionRetrieved, ConnectionLost]
    ensures lossDate == Some(2.0)
  {
    var reachability := new Reachability(NoConnection);
    var producer := new NetworkEventProducer(reachability, 0.0);
    producer.StartProducingEvents();
    reachability.SetConnection(Wifi);
    producer.ReachabilityStatusChanged(1.0);
    reachability.SetConnection(NoConnection);
    producer.ReachabilityStatusChanged(2.0);
    events, lossDate := producer.delivered, producer.connectionLossDate;
  }

  /** Going from wifi to cellular is a network change. */
  method ChangedScenario() returns (events: seq<NetworkEvent>)
    ensures events == [ConnectionRetrieved, NetworkChanged]
  {
    var reachability := new Reachability(NoConnection);
    var producer := new NetworkEventProducer(reachability, 0.0);
    producer.StartProducingEvents();
    reachability.SetConnection(Wifi);
    producer.ReachabilityStatusChanged(1.0);
    reachability.SetConnection(Cellular);
    producer.ReachabilityStatusChanged(2.0);
    events := producer.delivered;
  }

  /** Starting twice is starting once, and stopping twice is stopping once. */
  method StartStopIdempotent(reachability: Reachability?)
    returns (once: bool, twice: bool, connectionOnce: Connection, connectionTwice: Connection, stopped: bool)
    ensures once == twice
    ensures connectionOnce == connectionTwice
    ensures !stopped
  {
    var producer := new NetworkEventProducer(reachability, 0.0);
    producer.StartProducingEvents();
    once := producer.listening;
    connectionOnce := producer.lastConnection;
    producer.StartProducingEvents();
    twice := producer.listening;
    connectionTwice := producer.lastConnection;
    producer.StopProducingEvents();
    producer.StopProducingEvents();
    stopped := producer.listening;
  }
}
