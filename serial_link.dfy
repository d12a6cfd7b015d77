/**
 * The connection layer of js/serial.js: `connectSerial`, its error
 * classification, `handleDisconnection` and the `startSerialReading` loop.
 * The Web Serial port picker, `open`, and the reader are replaced by their
 * outcomes, given as parameters: what `requestPort` returned, what `open`
 * threw (if anything), and the sequence of results the reader delivers.
 */
module SerialLink {
  import opened Wrappers
  import opened BpmParser

  /** What `port.getInfo()` reports; a missing id is `undefined`. */
  datatype PortInfo = PortInfo(usbVendorId: Option<nat>, usbProductId: Option<nat>)

  datatype Port = Port(id: nat, info: PortInfo)

  /** A thrown JavaScript error: only its `name` and `message` are inspected. */
  datatype JsError = JsError(name: string, message: string)

  /** The four kinds `connectSerial` tells apart, each with its own dialog. */
  datatype ConnectError = NoPortSelected | OpenFailed | PortBusy | Unknown

  /** How a connection attempt ends; `connectSerial` returns `true` only for `Connected`. */
  datatype ConnectOutcome = Connected | InvalidPort | Failed(kind: ConnectError)

  /** One `await serialReader.read()`: a decoded text chunk, end of stream, or a thrown error. */
  datatype ReadResult = Chunk(text: string) | Done | Fault(error: JsError)

  /** What the link publishes: a `bpmUpdate` event, or the "Connection Lost" notice. */
  datatype LinkEvent = BpmUpdate(reading: Reading) | ConnectionLost

  /** `sub` occurs in `s` at position `i`. */
  predicate OccursAt(s: string, sub: string, i: nat) {
    i + |sub| <= |s| && s[i..i + |sub|] == sub
  }

  /** `String.prototype.includes`, searching from position `from`. */
  function IncludesFrom(s: string, sub: string, from: nat): (b: bool)
    ensures b <==> exists i :: from <= i && OccursAt(s, sub, i)
    decreases |s| - from
  {
    if from + |sub| > |s| then false
    else if OccursAt(s, sub, from) then true
    else IncludesFrom(s, sub, from + 1)
  }

  predicate Includes(s: string, sub: string) {
    IncludesFrom(s, sub, 0)
  }

  ghost predicate IsCancel(e: JsError) {
    e.name == "NotFoundError" || Includes(e.message, "No port selected")
  }

  ghost predicate IsOpenFailure(e: JsError) {
    e.name == "NetworkError" || Includes(e.message, "Failed to open")
  }

  ghost predicate IsBusy(e: JsError) {
    e.name == "InvalidStateError" || Includes(e.message, "already open")
  }

  /** The `catch` branch of `connectSerial`: the first test that matches decides. */
  function ClassifyError(e: JsError): (k: ConnectError)
    ensures k == NoPortSelected <==> IsCancel(e)
    ensures k == OpenFailed <==> !IsCancel(e) && IsOpenFailure(e)
    ensures k == PortBusy <==> !IsCancel(e) && !IsOpenFailure(e) && IsBusy(e)
    ensures k == Unknown <==> !IsCancel(e) && !IsOpenFailure(e) && !IsBusy(e)
  {
    if e.name == "NotFoundError" || Includes(e.message, "No port selected") then NoPortSelected
    else if e.name == "NetworkError" || Includes(e.message, "Failed to open") then OpenFailed
    else if e.name == "InvalidStateError" || Includes(e.message, "already open") then PortBusy
    else Unknown
  }

  /** `!portInfo.usbVendorId`: an absent id and the id 0 are both falsy. */
  predicate HasVendorId(info: PortInfo) {
    info.usbVendorId.Some? && info.usbVendorId.value != 0
  }

  /**
   * How an attempt ends, given what the picker returned and what `open`
   * threw. A port without a vendor id is rejected before `open` is tried.
   */
  function Attempt(picked: Result<Port, JsError>, openError: Option<JsError>): (o: ConnectOutcome)
    ensures o.Connected? <==> picked.Success? && HasVendorId(picked.value.info) && openError.None?
    ensures o.InvalidPort? <==> picked.Success? && !HasVendorId(picked.value.info)
    ensures picked.Failure? ==> o == Failed(ClassifyError(picked.error))
    ensures picked.Success? && HasVendorId(picked.value.info) && openError.Some? ==> o == Failed(ClassifyError(openError.value))
  {
    match picked
    case Failure(e) => Failed(ClassifyError(e))
    case Success(port) =>
      if !HasVendorId(port.info) then InvalidPort
      else match openError
        case Some(e) => Failed(ClassifyError(e))
        case None => Connected
  }

  /** The events one chunk produces: `if (value) parseBPM(value)`. */
  function ChunkEvents(text: string): (evs: seq<LinkEvent>)
    ensures |evs| <= 1
    ensures evs == [] <==> ParseBpm(text).None?
    ensures evs != [] ==> evs[0] == BpmUpdate(ParseBpm(text).value)
  {
    if text == [] then []
    else match ParseBpm(text)
      case Some(r) => [BpmUpdate(r)]
      case None => []
  }

  /** Whether the reader ever reports end of stream or throws. */
  predicate StopsIn(results: seq<ReadResult>) {
    results != [] && (!results[0].Chunk? || StopsIn(results[1..]))
  }

  /** The events the read loop publishes for a sequence of read results. */
  function LoopEvents(results: seq<ReadResult>): seq<LinkEvent> {
    if results == [] then []
    else match results[0]
      case Chunk(text) => ChunkEvents(text) + LoopEvents(results[1..])
      case Done => [ConnectionLost]
      case Fault(_) => [ConnectionLost]
  }

  function LostCount(evs: seq<LinkEvent>): nat {
    if evs == [] then 0 else (if evs[0] == ConnectionLost then 1 else 0) + LostCount(evs[1..])
  }

  lemma {:induction false} LostCountAppend(a: seq<LinkEvent>, b: seq<LinkEvent>)
    ensures LostCount(a + b) == LostCount(a) + LostCount(b)
  {
    if a == [] {
      assert a + b == b;
    } else {
      assert (a + b)[0] == a[0];
      assert (a + b)[1..] == a[1..] + b;
      LostCountAppend(a[1..], b);
    }
  }

  /** The loop calls `handleDisconnection` exactly once if the stream stops, never otherwise. */
  lemma {:induction false} LoopLosesConnectionOnce(results: seq<ReadResult>)
    ensures LostCount(LoopEvents(results)) == if StopsIn(results) then 1 else 0
    ensures StopsIn(results) <==> LoopEvents(results) != [] && LoopEvents(results)[|LoopEvents(results)| - 1] == ConnectionLost
  {
    if results != [] {
      match results[0]
      case Chunk(text) =>
        var head, rest := ChunkEvents(text), LoopEvents(results[1..]);
        assert LoopEvents(results) == head + rest;
        LoopLosesConnectionOnce(results[1..]);
        LostCountAppend(head, rest);
        ChunkLossFree(text);
        if rest != [] {
          assert (head + rest)[|head + rest| - 1] == rest[|rest| - 1];
        }
      case Done =>
      case Fault(_) =>
    }
  }

  /** A chunk never announces a lost connection. */
  lemma ChunkLossFree(text: string)
    ensures LostCount(ChunkEvents(text)) == 0
    ensures ChunkEvents(text) != [] ==> ChunkEvents(text)[|ChunkEvents(text)| - 1] != ConnectionLost
  {
    if ChunkEvents(text) != [] {
      assert ChunkEvents(text)[1..] == [];
    }
  }

  /**
   * The parser keeps no state between chunks: results that do not stop
   * contribute their events, in order, and the rest follows unaffected.
   */
  lemma {:induction false} LoopEventsAppend(xs: seq<ReadResult>, ys: seq<ReadResult>)
    requires !StopsIn(xs)
    ensures LoopEvents(xs + ys) == LoopEvents(xs) + LoopEvents(ys)
  {
    if xs == [] {
      assert xs + ys == ys;
    } else {
      assert (xs + ys)[0] == xs[0];
      assert (xs + ys)[1..] == xs[1..] + ys;
      LoopEventsAppend(xs[1..], ys);
    }
  }

  /** Nothing is read after end of stream or an error: the loop has left. */
  lemma {:induction false} LoopEventsAfterStop(xs: seq<ReadResult>, ys: seq<ReadResult>)
    requires StopsIn(xs)
    ensures LoopEvents(xs + ys) == LoopEvents(xs)
  {
    assert (xs + ys)[0] == xs[0];
    if xs[0].Chunk? {
      assert (xs + ys)[1..] == xs[1..] + ys;
      LoopEventsAfterStop(xs[1..], ys);
    }
  }

  /** One iteration of the read loop, on the results from position `i` on. */
  lemma LoopStep(results: seq<ReadResult>, i: nat)
    requires i < |results|
    ensures results[i].Chunk? ==> StopsIn(results[i..]) == StopsIn(results[i + 1..])
    ensures results[i].Chunk? ==> LoopEvents(results[i..]) == ChunkEvents(results[i].text) + LoopEvents(results[i + 1..])
    ensures !results[i].Chunk? ==> StopsIn(results[i..]) && LoopEvents(results[i..]) == [ConnectionLost]
  {
    assert results[i..][0] == results[i];
    assert results[i..][1..] == results[i + 1..];
  }

  /** Reading one more chunk extends the events of the chunks read so far. */
  lemma ReadChunk(results: seq<ReadResult>, i: nat)
    requires i < |results| && results[i].Chunk? && !StopsIn(results[..i])
    ensures !StopsIn(results[..i + 1])
    ensures LoopEvents(results[..i + 1]) == LoopEvents(results[..i]) + ChunkEvents(results[i].text)
  {
    assert results[..i + 1] == results[..i] + [results[i]];
    LoopEventsAppend(results[..i], [results[i]]);
    StopsInAppend(results[..i], [results[i]]);
    assert [results[i]][1..] == [];
  }

  /** The loop stops in a joined sequence exactly when it stops in one of the parts. */
  lemma {:induction false} StopsInAppend(xs: seq<ReadResult>, ys: seq<ReadResult>)
    ensures StopsIn(xs + ys) == (StopsIn(xs) || StopsIn(ys))
  {
    if xs == [] {
      assert xs + ys == ys;
    } else {
      assert (xs + ys)[0] == xs[0];
      if xs[0].Chunk? {
        assert (xs + ys)[1..] == xs[1..] + ys;
        StopsInAppend(xs[1..], ys);
      }
    }
  }

  /** Where the loop leaves: after the text chunks, at the first result that is not text, if any. */
  lemma LoopExit(results: seq<ReadResult>, i: nat)
    requires i <= |results| && !StopsIn(results[..i])
    requires i < |results| ==> !results[i].Chunk?
    ensures StopsIn(results) <==> i < |results|
    ensures LoopEvents(results) == LoopEvents(results[..i]) + (if i < |results| then [ConnectionLost] else [])
  {
    assert results == results[..i] + results[i..];
    LoopEventsAppend(results[..i], results[i..]);
    StopsInAppend(results[..i], results[i..]);
    if i < |results| {
      LoopStep(results, i);
    } else {
      assert results[i..] == [];
    }
  }

  /** The module-level connection state of js/serial.js and what it has published. */
  class Link {
    var isConnected: bool
    var serialPort: Option<Port>
    var serialReader: Option<Port>
    var events: seq<LinkEvent>

    constructor ()
      ensures !isConnected && serialPort.None? && serialReader.None? && events == []
    {
      isConnected := false;
      serialPort := None;
      serialReader := None;
      events := [];
    }

    /** `handleDisconnection`: clear the state and announce the loss. */
    method HandleDisconnection()
      modifies this
      ensures !isConnected && serialPort.None? && serialReader.None?
      ensures events == old(events) + [ConnectionLost]
    {
      isConnected := false;
      serialPort := None;
      serialReader := None;
      events := events + [ConnectionLost];
    }

    /** The body of the read loop while the reader keeps delivering text: each chunk goes to the parser. */
    method ReadChunks(results: seq<ReadResult>) returns (i: nat)
      modifies this`events
      ensures i <= |results| && !StopsIn(results[..i])
      ensures i < |results| ==> !results[i].Chunk?
      ensures events == old(events) + LoopEvents(results[..i])
    {
      i := 0;
      while i < |results| && results[i].Chunk?
        invariant 0 <= i <= |results|
        invariant !StopsIn(results[..i])
        invariant events == old(events) + LoopEvents(results[..i])
      {
        ReadChunk(results, i);
        events := events + ChunkEvents(results[i].text);
        i := i + 1;
      }
    }

    /**
     * The part of `startSerialReading` that runs before its first `await`:
     * the decoder is piped in and its reader is taken.
     */
    method AttachReader(port: Port)
      modifies this`serialReader
      ensures serialReader == Some(port)
    {
      serialReader := Some(port);
    }

    /**
     * The `while (true)` loop of `startSerialReading`, from its first read
     * until it leaves: chunks go to the parser, and `done` or a thrown read
     * error releases the reader and disconnects.
     */
    method ReadLoop(results: seq<ReadResult>) returns (stopped: bool)
      modifies this
      ensures stopped == StopsIn(results)
      ensures events == old(events) + LoopEvents(results)
      ensures stopped ==> !isConnected && serialPort.None? && serialReader.None?
      ensures !stopped ==>
        isConnected == old(isConnected) && serialPort == old(serialPort) && serialReader == old(serialReader)
    {
      var i := ReadChunks(results);
      LoopExit(results, i);
      if i < |results| {
        HandleDisconnection();
        stopped := true;
      } else {
        assert results[i..] == [];
        stopped := false;
      }
    }

    /** `startSerialReading(port)` run to the end of the reader's results. */
    method StartSerialReading(port: Port, results: seq<ReadResult>) returns (stopped: bool)
      modifies this
      ensures stopped == StopsIn(results)
      ensures events == old(events) + LoopEvents(results)
      ensures stopped ==> !isConnected && serialPort.None? && serialReader.None?
      ensures !stopped ==> isConnected == old(isConnected) && serialPort == old(serialPort) && serialReader == Some(port)
    {
      AttachReader(port);
      stopped := ReadLoop(results);
    }

    /**
     * `connectSerial`, up to the moment it returns. On success it marks the
     * link connected and starts `startSerialReading` without awaiting it, so
     * only the reader is taken and nothing has been read yet; on a thrown
     * error it resets the state; an invalid port returns without touching
     * the state.
     */
    method ConnectSerial(picked: Result<Port, JsError>, openError: Option<JsError>)
      returns (outcome: ConnectOutcome)
      modifies this
      ensures outcome == Attempt(picked, openError)
      ensures events == old(events)
      ensures outcome.InvalidPort? ==>
        isConnected == old(isConnected) && serialPort == old(serialPort) && serialReader == old(serialReader)
      ensures outcome.Failed? ==> !isConnected && serialPort.None? && serialReader.None?
      ensures outcome.Connected? ==>
        isConnected && serialPort == Some(picked.value) && serialReader == Some(picked.value)
    {
      match picked
      case Failure(e) =>
        isConnected, serialPort, serialReader := false, None, None;
        outcome := Failed(ClassifyError(e));
      case Success(port) =>
        if !HasVendorId(port.info) {
          outcome := InvalidPort;
          return;
        }
        match openError
        case Some(e) =>
          isConnected, serialPort, serialReader := false, None, None;
          outcome := Failed(ClassifyError(e));
        case None =>
          serialPort := Some(port);
          isConnected := true;
          AttachReader(port);
          outcome := Connected;
    }

    /**
     * One connection attempt over its whole life: `connectSerial` returns,
     * and afterwards the read loop it left running in the background goes
     * through the reader's results.
     */
    method ConnectAndRead(picked: Result<Port, JsError>, openError: Option<JsError>, results: seq<ReadResult>)
      returns (outcome: ConnectOutcome)
      modifies this
      ensures outcome == Attempt(picked, openError)
      ensures outcome.InvalidPort? ==>
        isConnected == old(isConnected) && serialPort == old(serialPort) && serialReader == old(serialReader) && events == old(events)
      ensures outcome.Failed? ==> !isConnected && serialPort.None? && serialReader.None? && events == old(events)
      ensures outcome.Connected? ==> events == old(events) + LoopEvents(results)
      ensures outcome.Connected? && StopsIn(results) ==> !isConnected && serialPort.None? && serialReader.None?
      ensures outcome.Connected? && !StopsIn(results) ==>
        isConnected && serialPort == Some(picked.value) && serialReader == Some(picked.value)
    {
      outcome := ConnectSerial(picked, openError);
      if outcome.Connected? {
        var _ := ReadLoop(results);
      }
    }
  }
}
