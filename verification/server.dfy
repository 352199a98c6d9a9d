/** The Flask server's shared state and the serial reader's lifecycle:
    the 30-key sensor store, the `arduino_status` record, the `stop_thread`
    flag, whether the global serial port is open, and the reader threads
    that are still alive. The reader thread's body is cut into atomic steps
    (open succeeded, open failed, one pass of the read loop, loop left on the
    stop flag, the `finally` block) that a scheduler may interleave with the
    HTTP handlers `Connect` and `Disconnect`, each of which is one atomic step. */
module ArduinoServer {
  import opened Sensors

  /** The `arduino_status` record: `{connected, message, port}`. */
  datatype Status = Status(connected: bool, message: string, port: string)

  /** Status at process start. */
  const InitialStatus: Status := Status(false, "Arduino not connected", "")

  /** Status that `disconnect_from_port` publishes, whatever came before. */
  const DisconnectedStatus: Status := Status(false, "Disconnected", "")

  /** Message the reader's `finally` block writes on every exit path. */
  const ExitMessage: string := "Arduino disconnected"

  /** What one pass of the read loop finds on the serial line. */
  datatype LineOutcome =
    | NoData                          // nothing waiting on the port
    | Decoded(record: map<string, int>) // a line that decodes to a JSON object
    | NotJson                         // the line is not JSON: logged and skipped
    | ReadError                       // any other exception (a failed read, a JSON value
                                      // that is not an object): the loop ends

  /** Where a reader thread is in `read_arduino_data`. */
  datatype Phase =
    | Opening(port: string)  // started, opening the port
    | Reading                // inside the `while not stop_thread` loop
    | Exiting                // left the loop or failed to open; `finally` is next

  /** A Socket.IO event broadcast to every observer. */
  datatype Event = SensorUpdate(data: map<string, int>) | ArduinoStatus(status: Status)

  /** An HTTP reply: `success`, `message` and the status code. */
  datatype Reply = Reply(success: bool, message: string, code: nat)

  /** The store the server starts with: every channel at 0. */
  function InitialSensorData(): (m: map<string, int>)
    ensures m.Keys == AllSensorKeys() && |m| == SensorCount
    ensures forall k | k in m :: m[k] == 0
  {
    KeyRangeSize(1, SensorCount);
    var m := map k | k in AllSensorKeys() :: 0;
    assert m.Keys == AllSensorKeys();
    m
  }

  /** The initial store holds `sensor_i` exactly for `i` in 1..30. */
  lemma InitialKeys(i: nat)
    ensures SensorKey(i) in InitialSensorData() <==> 1 <= i <= SensorCount
  {
    if SensorKey(i) in InitialSensorData() {
      var j: nat :| 1 <= j <= SensorCount && SensorKey(j) == SensorKey(i);
      SensorKeyInjective(i, j);
    }
  }

  /** The store after a decoded record is merged into it: the key set is
      kept, keys the store already has take the record's value, every other
      key of the record is ignored, and keys absent from the record keep
      their old value. */
  function Merged(store: map<string, int>, record: map<string, int>): (r: map<string, int>)
    ensures r.Keys == store.Keys
    ensures forall k | k in store && k in record :: r[k] == record[k]
    ensures forall k | k in store && k !in record :: r[k] == store[k]
  {
    map k | k in store :: if k in record then record[k] else store[k]
  }

  /** Keys the store does not know have no effect at all. */
  lemma MergeIgnoresUnknownKeys(store: map<string, int>, record: map<string, int>)
    ensures Merged(store, record) == Merged(store, map k | k in record && k in store :: record[k])
  {
  }

  /** Merging the same record twice is the same as merging it once. */
  lemma MergeIdempotent(store: map<string, int>, record: map<string, int>)
    ensures Merged(Merged(store, record), record) == Merged(store, record)
  {
  }

  /** Two records in a row act like one record in which the later one wins. */
  lemma MergeSequence(store: map<string, int>, first: map<string, int>, second: map<string, int>)
    ensures Merged(Merged(store, first), second) == Merged(store, first + second)
  {
  }

  /** No range check: a reading of 150 is stored as it is. */
  lemma MergeHasNoRangeCheck()
    ensures "sensor_1" in InitialSensorData()
    ensures Merged(InitialSensorData(), map["sensor_1" := 150])["sensor_1"] == 150
  {
    assert SensorKey(1) == "sensor_1";
    InitialKeys(1);
  }

  /** The outcome a pass of the read loop really has: on a closed port,
      asking for waiting bytes raises, whatever the line would have been. */
  function Effective(outcome: LineOutcome, portOpen: bool): (e: LineOutcome)
    ensures !portOpen ==> e == ReadError
    ensures portOpen ==> e == outcome
  {
    if portOpen then outcome else ReadError
  }

  /** `data.get('port')` is present and not empty. */
  predicate PortGiven(port: Option<string>) {
    port.Some? && port.value != ""
  }

  /** Some live reader has opened its port (and not yet run `finally`). */
  ghost predicate HasOpenedReader(threads: map<nat, Phase>) {
    exists t | t in threads :: !threads[t].Opening?
  }

  class Server {
    var sensorData: map<string, int>
    var status: Status
    var stopThread: bool
    /** The global `ser` refers to an open port. */
    var serialOpen: bool
    /** Reader threads still alive, by the order in which they were started. */
    var threads: map<nat, Phase>
    var nextThread: nat
    /** Every event broadcast so far, oldest first. */
    ghost var emitted: seq<Event>

    ghost predicate Valid()
      reads this
    {
      && sensorData.Keys == AllSensorKeys()
      && (forall t | t in threads :: t < nextThread)
      && (status.connected ==> HasOpenedReader(threads))
      && (serialOpen ==> HasOpenedReader(threads))
    }

    constructor ()
      ensures Valid()
      ensures forall k | k in sensorData :: sensorData[k] == 0
      ensures status == InitialStatus
      ensures !stopThread && !serialOpen && threads == map[] && nextThread == 0
      ensures emitted == []
    {
      sensorData := InitialSensorData();
      status := InitialStatus;
      stopThread := false;
      serialOpen := false;
      threads := map[];
      nextThread := 0;
      emitted := [];
    }

    /** `disconnect_from_port`: raise the stop flag, close the port and
        publish the disconnected status, unconditionally. The bounded join is
        not a step of its own: a reader that finishes within it is the same
        as one whose last steps were scheduled just before this one. */
    method Disconnect() returns (reply: Reply)
      requires Valid()
      modifies this
      ensures Valid()
      ensures reply == Reply(true, "Disconnected", 200)
      ensures stopThread && !serialOpen && status == DisconnectedStatus
      ensures sensorData == old(sensorData) && threads == old(threads) && nextThread == old(nextThread)
      ensures emitted == old(emitted) + [ArduinoStatus(DisconnectedStatus)]
    {
      stopThread := true;
      serialOpen := false;
      status := DisconnectedStatus;
      emitted := emitted + [ArduinoStatus(status)];
      reply := Reply(true, "Disconnected", 200);
    }

    /** `connect_to_port`: without a port, fail with 400 and touch nothing;
        otherwise disconnect, clear the stop flag, start exactly one new
        reader and acknowledge at once. */
    method Connect(port: Option<string>) returns (reply: Reply)
      requires Valid()
      modifies this
      ensures Valid()
      ensures !PortGiven(port) ==> reply == Reply(false, "No port specified", 400) && unchanged(this)
      ensures PortGiven(port) ==>
        && reply == Reply(true, "Connecting to " + port.value + "...", 200)
        && old(nextThread) !in old(threads)
        && threads == old(threads)[old(nextThread) := Opening(port.value)]
        && nextThread == old(nextThread) + 1
        && !stopThread && !serialOpen && status == DisconnectedStatus
        && sensorData == old(sensorData)
        && emitted == old(emitted) + [ArduinoStatus(DisconnectedStatus)]
    {
      if !PortGiven(port) {
        return Reply(false, "No port specified", 400);
      }
      var _ := Disconnect();
      stopThread := false;
      threads := threads[nextThread := Opening(port.value)];
      nextThread := nextThread + 1;
      reply := Reply(true, "Connecting to " + port.value + "...", 200);
    }

    /** Reader thread `t` opened its port. */
    method ReaderOpenOk(t: nat)
      requires Valid() && t in threads && threads[t].Opening?
      modifies this
      ensures Valid()
      ensures var p := old(threads[t].port);
        status == Status(true, "Connected to Arduino on " + p, p)
      ensures serialOpen && threads == old(threads)[t := Reading]
      ensures sensorData == old(sensorData) && stopThread == old(stopThread) && nextThread == old(nextThread)
      ensures emitted == old(emitted) + [ArduinoStatus(status)]
    {
      var p := threads[t].port;
      serialOpen := true;
      threads := threads[t := Reading];
      assert !threads[t].Opening?;
      status := Status(true, "Connected to Arduino on " + p, p);
      emitted := emitted + [ArduinoStatus(status)];
    }

    /** Reader thread `t` could not open its port; `error` is the exception's text. */
    method ReaderOpenFail(t: nat, error: string)
      requires Valid() && t in threads && threads[t].Opening?
      modifies this
      ensures Valid()
      ensures var p := old(threads[t].port);
        status == Status(false, "Arduino not connected: " + error, p)
      ensures threads == old(threads)[t := Exiting]
      ensures sensorData == old(sensorData) && stopThread == old(stopThread)
      ensures serialOpen == old(serialOpen) && nextThread == old(nextThread)
      ensures emitted == old(emitted) + [ArduinoStatus(status)]
    {
      var p := threads[t].port;
      if HasOpenedReader(threads) {
        var u :| u in threads && !threads[u].Opening?;
        assert u in threads[t := Exiting] && !threads[t := Exiting][u].Opening?;
      }
      threads := threads[t := Exiting];
      status := Status(false, "Arduino not connected: " + error, p);
      emitted := emitted + [ArduinoStatus(status)];
    }

    /** The `for` loop of `read_arduino_data` that copies every value whose
        key the store already has. */
    method MergeRecord(record: map<string, int>)
      modifies this
      ensures sensorData == Merged(old(sensorData), record)
      ensures status == old(status) && stopThread == old(stopThread) && serialOpen == old(serialOpen)
      ensures threads == old(threads) && nextThread == old(nextThread) && emitted == old(emitted)
    {
      var pending := record.Keys;
      while pending != {}
        invariant pending <= record.Keys
        invariant sensorData.Keys == old(sensorData).Keys
        invariant forall k | k in sensorData ::
          sensorData[k] == if k in record && k !in pending then record[k] else old(sensorData)[k]
        invariant status == old(status) && stopThread == old(stopThread) && serialOpen == old(serialOpen)
        invariant threads == old(threads) && nextThread == old(nextThread) && emitted == old(emitted)
        decreases pending
      {
        var key :| key in pending;
        if key in sensorData {
          sensorData := sensorData[key := record[key]];
        }
        pending := pending - {key};
      }
    }

    /** One pass of `while not stop_thread`: runs only while the stop flag is
        down. A decoded record is merged and the store broadcast; a line that
        is not JSON changes nothing and the loop goes on; any other failure
        ends the loop. */
    method ReaderLine(t: nat, outcome: LineOutcome)
      requires Valid() && t in threads && threads[t] == Reading && !stopThread
      modifies this
      ensures Valid()
      ensures var e := Effective(outcome, old(serialOpen));
        && threads == (if e.ReadError? then old(threads)[t := Exiting] else old(threads))
        && sensorData == (if e.Decoded? then Merged(old(sensorData), e.record) else old(sensorData))
        && emitted == old(emitted) + (if e.Decoded? then [SensorUpdate(sensorData)] else [])
      ensures status == old(status) && stopThread == old(stopThread)
      ensures serialOpen == old(serialOpen) && nextThread == old(nextThread)
    {
      var e := Effective(outcome, serialOpen);
      match e
      case NoData =>
      case NotJson =>
      case Decoded(record) =>
        MergeRecord(record);
        emitted := emitted + [SensorUpdate(sensorData)];
      case ReadError =>
        assert !threads[t := Exiting][t].Opening?;
        threads := threads[t := Exiting];
    }

    /** The loop condition finds the stop flag raised. */
    method ReaderStop(t: nat)
      requires Valid() && t in threads && threads[t] == Reading && stopThread
      modifies this
      ensures Valid()
      ensures threads == old(threads)[t := Exiting]
      ensures sensorData == old(sensorData) && status == old(status) && stopThread
      ensures serialOpen == old(serialOpen) && nextThread == old(nextThread) && emitted == old(emitted)
    {
      assert !threads[t := Exiting][t].Opening?;
      threads := threads[t := Exiting];
    }

    /** The `finally` block: close the global port if it is open, mark the
        status disconnected while keeping its port, broadcast it; the thread ends. */
    method ReaderExit(t: nat)
      requires Valid() && t in threads && threads[t] == Exiting
      modifies this
      ensures Valid()
      ensures status == old(status).(connected := false, message := ExitMessage)
      ensures !serialOpen && threads == old(threads) - {t}
      ensures sensorData == old(sensorData) && stopThread == old(stopThread) && nextThread == old(nextThread)
      ensures emitted == old(emitted) + [ArduinoStatus(status)]
    {
      serialOpen := false;
      threads := threads - {t};
      status := status.(connected := false, message := ExitMessage);
      emitted := emitted + [ArduinoStatus(status)];
    }

    /** `handle_connect`: the new observer alone is sent the current store,
        then the current status. */
    method HandleConnect() returns (events: seq<Event>)
      requires Valid()
      ensures events == [SensorUpdate(sensorData), ArduinoStatus(status)]
      ensures events[0].data.Keys == AllSensorKeys()
    {
      events := [SensorUpdate(sensorData), ArduinoStatus(status)];
    }
  }

  /** Calling `disconnect_from_port` twice gives the same reply and the same
      status both times. */
  method DisconnectTwice(s: Server) returns (first: Reply, afterFirst: Status, second: Reply)
    requires s.Valid()
    modifies s
    ensures first == second && afterFirst == s.status == DisconnectedStatus
  {
    first := s.Disconnect();
    afterFirst := s.status;
    second := s.Disconnect();
  }

  /** An open failure is broadcast with its error text, but the `finally`
      block then overwrites the message, so the status the server keeps
      no longer says why. */
  method OpenFailure(port: string, error: string) returns (failed: Status, final: Status)
    requires port != ""
    ensures failed == Status(false, "Arduino not connected: " + error, port)
    ensures final == Status(false, ExitMessage, port)
  {
    var s := new Server();
    var _ := s.Connect(Some(port));
    s.ReaderOpenFail(0, error);
    failed := s.status;
    s.ReaderExit(0);
    final := s.status;
  }

  /** The race between `disconnect_from_port` and the reader's `finally`:
      when the reader ends first the kept status is the disconnected one;
      when it ends after, its `finally` rewrites the message and keeps the
      empty port. */
  method DisconnectRace(port: string) returns (readerFirst: Status, disconnectFirst: Status)
    requires port != ""
    ensures readerFirst == DisconnectedStatus
    ensures disconnectFirst == Status(false, ExitMessage, "")
  {
    var a := new Server();
    var _ := a.Connect(Some(port));
    a.ReaderOpenOk(0);
    a.ReaderLine(0, ReadError);
    a.ReaderExit(0);
    var _ := a.Disconnect();
    readerFirst := a.status;

    var b := new Server();
    var _ := b.Connect(Some(port));
    b.ReaderOpenOk(0);
    var _ := b.Disconnect();
    b.ReaderStop(0);
    b.ReaderExit(0);
    disconnectFirst := b.status;
  }

  /** A join that times out leaves the old reader alive, and the next
      `connect_to_port` clears the stop flag under it: both readers run, and
      the old one's exit closes the shared port and reports "disconnected"
      while the new one is still in its read loop. */
  method StaleReader(first: string, second: string) returns (final: Status, newReader: Phase, portOpen: bool)
    requires first != "" && second != ""
    ensures final == Status(false, ExitMessage, second)
    ensures newReader == Reading && !portOpen
  {
    var s := new Server();
    var _ := s.Connect(Some(first));
    s.ReaderOpenOk(0);
    var _ := s.Connect(Some(second));
    s.ReaderOpenOk(1);
    s.ReaderLine(0, ReadError);
    s.ReaderExit(0);
    final := s.status;
    newReader := s.threads[1];
    portOpen := s.serialOpen;
  }
}
