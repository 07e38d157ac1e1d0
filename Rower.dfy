/**
 * The live S4 engine: the search for the console's serial port, the outbound
 * command queue drained one command per 200 ms tick, the inbound line
 * dispatcher that answers the handshake, the firmware check, every data value
 * and every strobe, and the reconnect/open cycle. Timers are explicit
 * operations (`Tick`, `FireReconnect`), the transport is the flag `port`
 * with the list `written` of strings sent, wall-clock time is `clock`.
 */
module Rower {
  import opened JsText
  import opened MemoryMap
  import opened Frames
  import opened Events

  /** The USB identifiers of the console's serial adapter. */
  const VendorId: string := "04d8"
  const ProductId: string := "000a"

  /** The line ending appended to every outbound command. */
  const EOL: string := "\r\n"

  const PortErrorMessage: string := "Port errored, trying to open again in 5 seconds"
  const PortClosedMessage: string := "Port was closed, trying again in 5 seconds"
  const OpenErrorMessage: string := "Error occorred opening connection. Attempting reconnect."

  function NotOpenMessage(cmd: string): string
  {
    "Communication port is not open - not sending data: " + cmd
  }

  function MismatchMessage(version: string): string
  {
    "WaterRower monitor version mismatch - expected S4 02.10 but got " + version
  }

  /** The details of the `reconnecting` state: the cause, two spaces, then the notice. */
  function ReconnectDetails(message: string): (d: string)
    ensures |d| >= 26 && d[|d| - 26..] == "Attempting reconnect in 5s"
    ensures message != "" ==> |d| == |message| + 28 && d[..|message|] == message
    ensures message != "" ==> d[|message|..|message| + 2] == "  "
    ensures message == "" ==> d == "Attempting reconnect in 5s"
  {
    (if message == "" then "" else message + "  ") + "Attempting reconnect in 5s"
  }

  /** One serial endpoint as the port listing reports it; an identifier that is not a string is `None`. */
  datatype PortInfo = PortInfo(vendorId: Option<string>, productId: Option<string>, path: string)

  predicate IsRowingMachine(p: PortInfo)
  {
    && p.vendorId.Some? && p.productId.Some?
    && ToLower(p.vendorId.value) == VendorId
    && ToLower(p.productId.value) == ProductId
  }

  /**
   * The port search: the path of the first endpoint whose vendor and product
   * identifiers are both strings equal, ignoring case, to the console's, or
   * `None` (the source's `false`) when there is none.
   */
  method FindPort(ports: seq<PortInfo>) returns (path: Option<string>)
    ensures path.None? <==> forall i | 0 <= i < |ports| :: !IsRowingMachine(ports[i])
    ensures path.Some? ==>
              exists i | 0 <= i < |ports| ::
                && IsRowingMachine(ports[i]) && ports[i].path == path.value
                && forall j | 0 <= j < i :: !IsRowingMachine(ports[j])
  {
    for i := 0 to |ports|
      invariant forall j | 0 <= j < i :: !IsRowingMachine(ports[j])
    {
      if ports[i].vendorId.None? || ports[i].productId.None? {
        continue;
      }
      if ToLower(ports[i].vendorId.value) == VendorId && ToLower(ports[i].productId.value) == ProductId {
        return Some(ports[i].path);
      }
    }
    return None;
  }

  /** The comparison ignores case: upper-case identifiers from the listing are found too. */
  lemma UpperCaseIdentifiersMatch(path: string)
    ensures IsRowingMachine(PortInfo(Some("04D8"), Some("000A"), path))
    ensures !IsRowingMachine(PortInfo(None, Some("000a"), path))
  {
    assert ToLower("04D8") == VendorId;
    assert ToLower("000A") == ProductId;
  }

  /**
   * For a `lower` of digits and lower-case letters, a string folds to it
   * exactly when each character is that of `lower` or of its upper-case
   * spelling `upper`.
   */
  lemma LowerCaseEquals(s: string, lower: string, upper: string)
    requires |lower| == |upper| == |s|
    requires forall i | 0 <= i < |lower| ::
               ('0' <= lower[i] <= '9' && upper[i] == lower[i]) ||
               ('a' <= lower[i] <= 'z' && upper[i] as int == lower[i] as int - 32)
    ensures ToLower(s) == lower <==> forall i | 0 <= i < |s| :: s[i] == lower[i] || s[i] == upper[i]
  {
    if ToLower(s) == lower {
      forall i | 0 <= i < |s|
        ensures s[i] == lower[i] || s[i] == upper[i]
      {
        assert ToLower(s)[i] == lower[i];
      }
    }
    if forall i | 0 <= i < |s| :: s[i] == lower[i] || s[i] == upper[i] {
      forall i | 0 <= i < |s|
        ensures ToLower(s)[i] == lower[i]
      {
      }
    }
  }

  /**
   * The identifiers the search accepts: the vendor identifier spelled
   * `04d8` with either case of `d`, the product identifier `000a` with
   * either case of `a`; a missing identifier never matches.
   */
  lemma RowingMachineIdentifiers(p: PortInfo)
    ensures IsRowingMachine(p) <==>
              && p.vendorId.Some? && p.productId.Some?
              && (p.vendorId.value == "04d8" || p.vendorId.value == "04D8")
              && (p.productId.value == "000a" || p.productId.value == "000A")
  {
    if p.vendorId.Some? && p.productId.Some? {
      VendorSpelling(p.vendorId.value);
      ProductSpelling(p.productId.value);
    }
  }

  lemma VendorSpelling(v: string)
    ensures ToLower(v) == VendorId <==> v == "04d8" || v == "04D8"
  {
    if |v| == 4 {
      LowerCaseEquals(v, "04d8", "04D8");
      if ToLower(v) == VendorId {
        assert v[0] == '0' && v[1] == '4' && v[3] == '8';
      }
    }
  }

  lemma ProductSpelling(w: string)
    ensures ToLower(w) == ProductId <==> w == "000a" || w == "000A"
  {
    if |w| == 4 {
      LowerCaseEquals(w, "000a", "000A");
      if ToLower(w) == ProductId {
        assert w[0] == '0' && w[1] == '0' && w[2] == '0';
      }
    }
  }

  /** The lines the engine can take: a data line must name an address of the table. */
  predicate Dispatchable(line: string, m: seq<MemoryEntry>)
  {
    match Classify(line)
    case Data(_, address, _) => IndexOf(m, address).Some?
    case _ => true
  }

  /**
   * The console's data line, sent twice: the first decode may change the
   * entry, the second is no change, so one update at most is emitted.
   */
  lemma RepeatedDataLineIsSilent(size: char, address: string, n: nat, rest: string, e: MemoryEntry)
    requires Width([size]).Some? && |address| == 3
    requires n < Pow16(2 * Width([size]).value)
    ensures Classify(DataLine(size, address, n) + rest).Data?
    ensures var v := Scaled(ParseHex(Classify(DataLine(size, address, n) + rest).digits), e);
            && v.Num?
            && !ApplyReading(ApplyReading(e, v).0, v).1
            && ApplyReading(ApplyReading(e, v).0, v).0 == ApplyReading(e, v).0
  {
    DataLineRoundTrip(size, address, n, rest);
    var v := Scaled(Num(n), e);
    assert v.Num?;
    RepeatedReadingIsSilent(e, v);
  }

  /**
   * A data line cut off right after its address carries no digits: it
   * decodes to NaN, which is never strictly equal to the stored value, so
   * every such line stores NaN and emits an update.
   */
  lemma TruncatedDataLineAlwaysUpdates(line: string, e: MemoryEntry)
    requires |line| == 6 && line[0] == 'I' && line[1] == 'D' && line[2] in "SDT"
    ensures Classify(line) == Data([line[2]], line[3..6], "")
    ensures Scaled(ParseHex(""), e) == NaN
    ensures ApplyReading(e, NaN).1
    ensures ApplyReading(e, NaN).0.value == NaN && ApplyReading(e, NaN).0.prevValue == e.value
  {
    TruncatedDataLine(line);
    NoDigitsIsNaN("");
    NaNReadingAlwaysChanges(e);
  }

  class S4 {
    const zeroOnReset: bool
    /** The addresses of the table, fixed at construction. */
    ghost const keys: seq<string>
    /** The time the recorder was attached (the constructor's `new Date()`). */
    ghost const origin: int

    var port: bool
    var written: seq<string>
    var pending: seq<string>
    var writer: bool
    var writerRunning: bool
    var connected: bool
    var reconnecting: bool
    var destroyed: bool
    var recordingEnded: bool
    var memoryMap: seq<MemoryEntry>
    var bus: Bus
    var clock: int
    /** `port.open` calls whose callback has not run yet. */
    ghost var openRequests: nat

    ghost predicate Valid()
      reads this`memoryMap, this`bus, this`clock, this`writer, this`writerRunning
    {
      && KeysOf(memoryMap) == keys
      && Mirrors(bus, origin)
      && AllApplicable(bus.events, keys)
      && bus.lastEmit <= clock
      && (writerRunning ==> writer)
    }

    /** The memory map after a reset: zeroed when so configured. */
    function AfterReset(m: seq<MemoryEntry>): seq<MemoryEntry>
    {
      if zeroOnReset then Zeroed(m) else m
    }

    constructor (zeroOnReset: bool, record: bool, memoryMap: seq<MemoryEntry>, now: int)
      ensures Valid()
      ensures this.zeroOnReset == zeroOnReset && this.memoryMap == memoryMap
      ensures bus == Bus([], record, [], now) && clock == now
      ensures !port && written == [] && pending == []
      ensures !writer && !writerRunning && !connected && !reconnecting && !destroyed && !recordingEnded
      ensures openRequests == 0
    {
      this.zeroOnReset := zeroOnReset;
      keys := KeysOf(memoryMap);
      origin := now;
      port := false;
      written := [];
      pending := [];
      writer := false;
      writerRunning := false;
      connected := false;
      reconnecting := false;
      destroyed := false;
      recordingEnded := false;
      this.memoryMap := memoryMap;
      bus := Bus([], record, [], now);
      clock := now;
      openRequests := 0;
    }

    /** The passage of `ms` milliseconds. */
    method Elapse(ms: nat)
      requires Valid()
      modifies this`clock
      ensures Valid() && clock == old(clock) + ms
    {
      clock := clock + ms;
    }

    method GetMemory() returns (m: seq<MemoryEntry>)
      ensures m == memoryMap
    {
      m := memoryMap;
    }

    /** `_emit`: deliver one event and hand it to the recorder. */
    method Emit(e: Event)
      requires Valid() && Applicable(e.name, e.payload, keys)
      modifies this`bus
      ensures Valid()
      ensures bus == Events.Emit(old(bus), clock, e)
    {
      EmitKeepsMirror(bus, origin, clock, e);
      EmitKeepsApplicable(bus.events, keys, e);
      bus := Events.Emit(bus, clock, e);
    }

    /** `_write`: queue a command. */
    method Write(cmd: string)
      modifies this`pending
      ensures pending == old(pending) + [cmd]
    {
      pending := pending + [cmd];
    }

    method ReadMemoryAddress(address: string, size: string)
      modifies this`pending
      ensures pending == old(pending) + [ReadCommand(size, address)]
    {
      Write(ReadCommand(size, address));
    }

    /** The state a reset leaves, given the event stream and table it started from. */
    ghost predicate ResetFrom(b: Bus, m: seq<MemoryEntry>)
      reads this
    {
      && pending == ["RESET"]
      && bus == Events.Emit(b, clock, StateEvent(Status.Reset, None))
      && memoryMap == AfterReset(m)
    }

    /**
     * `reset`: the queue holds only `RESET`, one `reset` state is emitted,
     * and with `zeroOnReset` every value (not `prevValue`) becomes 0.
     */
    method Reset()
      requires Valid()
      modifies this`pending, this`bus, this`memoryMap
      ensures Valid()
      ensures ResetFrom(old(bus), old(memoryMap))
    {
      pending := [];
      Write("RESET");
      Emit(StateEvent(Status.Reset, None));
      if zeroOnReset {
        ghost var m0 := memoryMap;
        for i := 0 to |memoryMap|
          modifies this`memoryMap
          invariant |memoryMap| == |m0|
          invariant forall j | 0 <= j < i :: memoryMap[j] == m0[j].(value := Num(0))
          invariant forall j | i <= j < |m0| :: memoryMap[j] == m0[j]
        {
          memoryMap := memoryMap[i := memoryMap[i].(value := Num(0))];
        }
        assert memoryMap == Zeroed(m0);
        ZeroedKeepsKeys(m0);
      }
    }

    /**
     * `destroy`: one `stopped` state; `EXIT` is queued and the queue then
     * cleared, the flush timer stopped, the recorder closed, and the engine
     * marked destroyed.
     */
    method Destroy()
      requires Valid()
      modifies this`bus, this`pending, this`destroyed, this`writerRunning, this`recordingEnded
      ensures Valid()
      ensures bus == Events.Emit(old(bus), clock, StateEvent(Stopped, None))
      ensures pending == [] && destroyed && !writerRunning
      ensures recordingEnded == (old(recordingEnded) || bus.recording)
    {
      Emit(StateEvent(Stopped, None));
      Write("EXIT");
      pending := [];
      destroyed := true;
      if writer {
        writerRunning := false;
      }
      if bus.recording {
        recordingEnded := true;
      }
    }

    /**
     * One flush: nothing on an empty queue; otherwise exactly the head is
     * removed, and it is either written with the line ending (emitting
     * `started` when it is `RESET`) or, with no port, dropped with one
     * `error` naming it.
     */
    twostate predicate FlushedHead()
      reads this
    {
      if old(pending) == [] then
        pending == [] && written == old(written) && bus == old(bus)
      else
        var cmd := old(pending)[0];
        && pending == old(pending)[1..]
        && (if port then
              && written == old(written) + [cmd + EOL]
              && bus == (if cmd == "RESET" then Events.Emit(old(bus), clock, StateEvent(Started, None)) else old(bus))
            else
              && written == old(written)
              && bus == Events.Emit(old(bus), clock, StateEvent(Error, Some(NotOpenMessage(cmd)))))
    }

    /** `_flushNext`. */
    method FlushNext()
      requires Valid()
      modifies this`pending, this`written, this`bus
      ensures Valid() && FlushedHead()
    {
      if |pending| == 0 {
        return;
      }
      var cmd := pending[0];
      pending := pending[1..];
      if port {
        written := written + [cmd + EOL];
        if cmd == "RESET" {
          Emit(StateEvent(Started, None));
        }
      } else {
        Emit(StateEvent(Error, Some(NotOpenMessage(cmd))));
      }
    }

    /** The 200 ms flush interval firing; it fires only while it is running. */
    method Tick()
      requires Valid() && writerRunning
      modifies this`pending, this`written, this`bus
      ensures Valid() && FlushedHead()
    {
      FlushNext();
    }

    /** The effect of an inbound line of the given kind. */
    twostate predicate Handled(f: Frame)
      reads this
    {
      match f
      case Handshake =>
        pending == old(pending) + ["IV?"] && bus == old(bus) && memoryMap == old(memoryMap)
      case Strobe =>
        pending == old(pending) + StrobeCommands(old(memoryMap)) && bus == old(bus) && memoryMap == old(memoryMap)
      case Chatter =>
        pending == old(pending) && bus == old(bus) && memoryMap == old(memoryMap)
      case Unrecognized =>
        pending == old(pending) && bus == old(bus) && memoryMap == old(memoryMap)
      case Version(version) =>
        ResetFrom(
          if version == ExpectedVersion then old(bus)
          else Events.Emit(old(bus), clock, StateEvent(Error, Some(MismatchMessage(version)))),
          old(memoryMap))
      case Data(size, address, digits) =>
        DataHandled(size, address, digits)
    }

    /**
     * The effect of a data line: the entry with the address takes the scaled
     * reading when it differs (one update emitted), and the address is read
     * again in every case.
     */
    twostate predicate DataHandled(size: string, address: string, digits: string)
      reads this
    {
      match IndexOf(old(memoryMap), address)
      case None => false
      case Some(i) =>
        var before := old(memoryMap)[i];
        var applied := ApplyReading(before, Scaled(ParseHex(digits), before));
        && memoryMap == old(memoryMap)[i := applied.0]
        && bus == (if applied.1 then Events.Emit(old(bus), clock, UpdateEvent(applied.0)) else old(bus))
        && pending == old(pending) + [ReadCommand(size, address)]
    }

    /** `_readAndDispatch`: one inbound line, dispatched on its first character. */
    method ReadAndDispatch(line: string)
      requires Valid() && Dispatchable(line, memoryMap)
      modifies this`pending, this`bus, this`memoryMap
      ensures Valid() && Handled(Classify(line))
    {
      var c := CharAt(line, 0);
      if c == "_" {
        WrHandler(line);
      } else if c == "I" {
        InformationHandler(line);
      } else if c == "O" || c == "E" || c == "P" {
        // ignored
      } else if c == "S" {
        ghost var p0 := pending;
        for i := 0 to |memoryMap|
          modifies this`pending
          invariant pending == p0 + StrobeCommands(memoryMap[..i])
        {
          assert memoryMap[..i + 1][..i] == memoryMap[..i];
          ReadMemoryAddress(memoryMap[i].address, memoryMap[i].size);
        }
        assert memoryMap[..|memoryMap|] == memoryMap;
      } else {
        // unrecognized: only logged
      }
    }

    /** `_wrHandler`: the handshake acknowledgement asks for the firmware version. */
    method WrHandler(line: string)
      modifies this`pending
      ensures Handled(if line == "_WR_" then Handshake else Unrecognized)
    {
      if line == "_WR_" {
        Write("IV?");
      }
    }

    /** `_informationHandler`: an "I" line, dispatched on its second character. */
    method InformationHandler(line: string)
      requires Valid() && Dispatchable(line, memoryMap) && CharAt(line, 0) == "I"
      modifies this`pending, this`bus, this`memoryMap
      ensures Valid() && Handled(InformationFrame(line))
    {
      var c := CharAt(line, 1);
      if c == "V" {
        InformationVersionHandler(line);
      } else if c == "D" {
        MemoryValueHandler(line);
      }
    }

    /**
     * `_informationVersionHandler`: a version other than `S4 02.10` emits one
     * `error` state; the reset follows in every case.
     */
    method InformationVersionHandler(line: string)
      requires Valid()
      modifies this`pending, this`bus, this`memoryMap
      ensures Valid() && Handled(Version(VersionString(line)))
    {
      var version := VersionString(line);
      if version != ExpectedVersion {
        Emit(StateEvent(Error, Some(MismatchMessage(version))));
      }
      Reset();
    }

    /**
     * `_memoryValueHandler`: decode the `2 * width` digits after the address,
     * scale them, store them when they differ (emitting one update) and read
     * the address again; an unknown size code does nothing.
     */
    method MemoryValueHandler(line: string)
      requires Valid()
      requires MemoryValueFrame(line).Data? ==> IndexOf(memoryMap, MemoryValueFrame(line).address).Some?
      modifies this`pending, this`bus, this`memoryMap
      ensures Valid() && Handled(MemoryValueFrame(line))
    {
      var size := CharAt(line, 2);
      var address := Substring(line, 3, 6);
      var l: nat;
      if size == "S" {
        l := 1;
      } else if size == "D" {
        l := 2;
      } else if size == "T" {
        l := 3;
      } else {
        assert MemoryValueFrame(line) == Unrecognized;
        return;
      }
      var end := 6 + 2 * l;
      assert MemoryValueFrame(line) == Data(size, address, Substring(line, 6, end));
      UpdateDataPoint(size, address, Substring(line, 6, end));
    }

    /**
     * The second half of `_memoryValueHandler`, given the data line's fields:
     * find the entry by address, parse the digits as hexadecimal, scale by a
     * truthy `multiple`, store a differing reading (one update), and read the
     * address again.
     */
    method UpdateDataPoint(size: string, address: string, digits: string)
      requires Valid() && IndexOf(memoryMap, address).Some?
      modifies this`pending, this`bus, this`memoryMap
      ensures Valid() && DataHandled(size, address, digits)
    {
      var i := IndexOf(memoryMap, address).value;
      var dataPoint := memoryMap[i];
      var value := ParseHex(digits);
      if Truthy(dataPoint.multiple) {
        value := Times(value, dataPoint.multiple.value);
      }
      StoreReading(i, value);
      ReadMemoryAddress(address, size);
    }

    /**
     * The change-detection step of `_memoryValueHandler` for the entry at
     * index `i`: a differing reading is stored and emitted as one update.
     */
    method StoreReading(i: nat, value: Reading)
      requires Valid() && i < |memoryMap|
      modifies this`bus, this`memoryMap
      ensures Valid()
      ensures memoryMap == old(memoryMap)[i := ApplyReading(old(memoryMap)[i], value).0]
      ensures bus == if ApplyReading(old(memoryMap)[i], value).1
                     then Events.Emit(old(bus), clock, UpdateEvent(ApplyReading(old(memoryMap)[i], value).0))
                     else old(bus)
    {
      var dataPoint := memoryMap[i];
      if StrictlyDiffers(dataPoint.value, value) {
        ApplyReadingKeepsKeys(memoryMap, i, value);
        dataPoint := dataPoint.(prevValue := dataPoint.value, value := value);
        memoryMap := memoryMap[i := dataPoint];
        assert dataPoint.address == keys[i];
        Emit(UpdateEvent(dataPoint));
      }
    }

    /**
     * `_reconnect`: always marks the engine disconnected; unless a retry is
     * already scheduled, emits one `reconnecting` state and schedules one.
     */
    method Reconnect(message: string)
      requires Valid()
      modifies this`connected, this`reconnecting, this`bus
      ensures Valid() && !connected && reconnecting
      ensures bus == if old(reconnecting) then old(bus)
                     else Events.Emit(old(bus), clock, StateEvent(Reconnecting, Some(ReconnectDetails(message))))
    {
      connected := false;
      if reconnecting {
        return;
      }
      Emit(StateEvent(Reconnecting, Some(ReconnectDetails(message))));
      reconnecting := true;
    }

    /** The port's `error` notification, subscribed to once `start` has created the port. */
    method PortErrored()
      requires Valid() && port
      modifies this`connected, this`reconnecting, this`bus
      ensures Valid() && !connected && reconnecting
      ensures bus == if old(reconnecting) then old(bus)
                     else Events.Emit(old(bus), clock, StateEvent(Reconnecting, Some(ReconnectDetails(PortErrorMessage))))
    {
      Reconnect(PortErrorMessage);
    }

    /** The port's `close` notification, subscribed to once `start` has created the port. */
    method PortClosed()
      requires Valid() && port
      modifies this`connected, this`reconnecting, this`bus
      ensures Valid() && !connected && reconnecting
      ensures bus == if old(reconnecting) then old(bus)
                     else Events.Emit(old(bus), clock, StateEvent(Reconnecting, Some(ReconnectDetails(PortClosedMessage))))
    {
      Reconnect(PortClosedMessage);
    }

    /** `_open`: cancel the scheduled retry and ask the port object, which must exist, to open. */
    method Open()
      requires Valid() && port
      modifies this`reconnecting, this`openRequests
      ensures Valid() && !reconnecting && openRequests == old(openRequests) + 1
    {
      reconnecting := false;
      openRequests := openRequests + 1;
    }

    /** The 5 s reconnect timer firing; it fires only while it is scheduled. */
    method FireReconnect()
      requires Valid() && port && reconnecting
      modifies this`reconnecting, this`openRequests
      ensures Valid() && !reconnecting && openRequests == old(openRequests) + 1
    {
      Open();
    }

    /** The callback of `port.open` with an error: reconnect. */
    method OpenFailed()
      requires Valid() && port && openRequests > 0
      modifies this`openRequests, this`connected, this`reconnecting, this`bus
      ensures Valid() && openRequests == old(openRequests) - 1
      ensures !connected && reconnecting
      ensures bus == if old(reconnecting) then old(bus)
                     else Events.Emit(old(bus), clock, StateEvent(Reconnecting, Some(ReconnectDetails(OpenErrorMessage))))
    {
      openRequests := openRequests - 1;
      Reconnect(OpenErrorMessage);
    }

    /**
     * The callback of `port.open` on success: a previous flush timer is
     * stopped, and if commands were still queued the engine resets; a new
     * flush timer starts, the engine is connected and `USB` is queued last.
     */
    method OpenSucceeded()
      requires Valid() && port && openRequests > 0
      modifies this`openRequests, this`writer, this`writerRunning, this`pending, this`bus,
               this`memoryMap, this`connected
      ensures Valid() && openRequests == old(openRequests) - 1
      ensures writer && writerRunning && connected
      ensures old(writer) && old(pending) != [] ==>
                && pending == ["RESET", "USB"]
                && bus == Events.Emit(old(bus), clock, StateEvent(Status.Reset, None))
                && memoryMap == AfterReset(old(memoryMap))
      ensures !(old(writer) && old(pending) != []) ==>
                pending == old(pending) + ["USB"] && bus == old(bus) && memoryMap == old(memoryMap)
    {
      openRequests := openRequests - 1;
      if writer {
        writerRunning := false;
        if |pending| > 0 {
          Reset();
        }
      }
      writer := true;
      writerRunning := true;
      connected := true;
      Write("USB");
    }

    /**
     * `start`: without a (truthy) port path nothing happens; otherwise the
     * port object is created and opened. `started` only reports which branch
     * ran; the source returns `false` or nothing, and its caller ignores it.
     */
    method Start(path: Option<string>) returns (started: bool)
      requires Valid()
      modifies this`port, this`reconnecting, this`openRequests
      ensures Valid()
      ensures started <==> path.Some? && path.value != ""
      ensures started ==> port && !reconnecting && openRequests == old(openRequests) + 1
      ensures !started ==> port == old(port) && reconnecting == old(reconnecting) && openRequests == old(openRequests)
    {
      if path.None? || path.value == "" {
        return false;
      }
      port := true;
      Open();
      return true;
    }
  }
}
