/**
 * The Go client (clients/golang/client.go): the Request and Notification
 * envelopes it writes, the validation of the Response it reads back, its
 * integer conversion, message-id allocation, and the small
 * disconnect/reconnect state machine over `disconnected`, `autoReconnect`
 * and `connTime`.
 *
 * Sockets, the clock and the msgpack codec are parameters: time is an `int`
 * count of nanoseconds, a dial is answered by a `DialMode -> DialOutcome`
 * function, and encoding, writing and reading are given as outcomes.
 */
module GoClient {
  import opened Wrappers
  import opened MsgPack

  // Message type tags of the MessagePack-RPC protocol, as the client writes them.
  const REQUEST := 0
  const RESPONSE := 1
  const NOTIFICATION := 2

  /** One second in nanoseconds: the least time between two automatic reconnects. */
  const ReconnectInterval := 1_000_000_000

  const Two32 := 0x1_0000_0000
  const Two63 := 0x8000_0000_0000_0000
  const Two64 := 0x1_0000_0000_0000_0000

  /** An open network connection, known only by identity. */
  datatype Conn = Conn(handle: nat)

  /** An error reported by the network or the codec. */
  datatype NetError = NetError(code: nat)

  /** Which dial function `connect` uses: `net.Dial` or `net.DialTimeout`. */
  datatype DialMode = Dial | DialTimeout(timeout: int)

  datatype DialOutcome = Dialed(conn: Conn) | DialFailed(e: NetError)
  datatype IoOutcome = Done | IoFailed(e: NetError)
  datatype ReadOutcome = Decoded(data: Value) | ReadFailed(e: NetError)

  datatype ClientError =
    | Disconnected                            // "Connection is disconnected."
    | InvalidFormat                           // "Invalid message format"
    | IdMismatch(sent: uint32, got: uint32)   // "Message IDs don't match (sent != got)"
    | Remote(errValue: Value)                 // the server's error slot, printed
    | Net(e: NetError)                        // dialing, encoding, writing or decoding failed
    | NilConnection                           // runtime panic on a nil connection

  // ---------------------------------------------------------------------------
  // Integer conversions
  // ---------------------------------------------------------------------------

  /** Go's `int(x)` on a 64-bit target: two's complement truncation to 64 bits. */
  function ToGoInt(n: int): (r: int)
    ensures -Two63 <= r < Two63
    ensures -Two63 <= n < Two63 ==> r == n
  {
    (n + Two63) % Two64 - Two63
  }

  /** Go's `uint32(x)`: the low 32 bits of `x`. */
  function ToUint32(n: int): (r: uint32)
    ensures 0 <= n < Two32 ==> r == n
    ensures (n - r) % Two32 == 0
  {
    n % Two32
  }

  /** The id after `id`: `nextId += 1` on a `uint32`, wrapping to 0. */
  function NextId(id: uint32): (r: uint32)
    ensures id < Two32 - 1 ==> r == id + 1
    ensures id == Two32 - 1 ==> r == 0
  {
    (id + 1) % Two32
  }

  /**
   * `toInteger`: succeeds for exactly the nine Go integer kinds and
   * converts them to Go's `int`; anything else is "Invalid message format".
   */
  function ToInteger(v: Value): (r: Result<int, ClientError>)
    ensures r.Ok? <==> v.Int?
    ensures r.Err? ==> r.error == InvalidFormat
    ensures v.Int? && InRange(v.kind, v.n) && v.kind != U64 ==> r.value == v.n
    ensures v.Int? && v.kind == U64 && InRange(U64, v.n) ==>
              r.value == if v.n < Two63 then v.n else v.n - Two64
  {
    match v
    case Int(_, n) => Ok(ToGoInt(n))
    case _ => Err(InvalidFormat)
  }

  // ---------------------------------------------------------------------------
  // Envelopes
  // ---------------------------------------------------------------------------

  /** `request`: the fixarray header 0x94, then `[REQUEST, id, funcName, args]`. */
  function RequestFrame(id: uint32, funcName: string, args: seq<Value>): (f: Frame)
    ensures f.header == 0x94 && f.Framed() && |f.elems| == 4
    ensures f.elems[0] == Int(U8, REQUEST) && f.elems[1] == Int(U32, id)
  {
    Frame(FixArrayHeader(4), [Int(U8, REQUEST), Int(U32, id), Str(funcName), Arr(args)])
  }

  /** `Send`: the fixarray header 0x93, then `[NOTIFICATION, funcName, args]`; no id. */
  function NotificationFrame(funcName: string, args: seq<Value>): (f: Frame)
    ensures f.header == 0x93 && f.Framed() && |f.elems| == 3
    ensures f.elems[0] == Int(U8, NOTIFICATION)
    ensures forall i :: 0 <= i < |f.elems| ==> !f.elems[i].Int? || f.elems[i].n == NOTIFICATION
  {
    Frame(FixArrayHeader(3), [Int(U8, NOTIFICATION), Str(funcName), Arr(args)])
  }

  // ---------------------------------------------------------------------------
  // Response validation
  // ---------------------------------------------------------------------------

  /** What `response` returns: the id, the result value (`Nil` when absent) and an error. */
  datatype Reply = Reply(id: uint32, result: Value, err: Option<ClientError>)

  /** The decoded value passes every `break` of the validation loop up to the error slot. */
  predicate IsResponseShape(data: Value)
  {
    data.Arr? && |data.elems| == 4 && data.elems[0].Int? && ToGoInt(data.elems[0].n) == RESPONSE
  }

  /**
   * The validation loop of `response` over a decoded value. An id element
   * that is no integer leaves the id at 0 without an error, as the source does.
   */
  function ResponseOf(data: Value): (r: Reply)
    ensures r.err == Some(InvalidFormat) <==> !IsResponseShape(data)
    ensures !IsResponseShape(data) ==> r.id == 0 && r.result == Nil
    ensures IsResponseShape(data) ==>
              r.id == if data.elems[1].Int? then ToUint32(ToGoInt(data.elems[1].n)) else 0
    ensures IsResponseShape(data) && data.elems[2] == Nil ==>
              r.err == None && r.result == data.elems[3]
    ensures IsResponseShape(data) && data.elems[2] != Nil ==>
              r.err == Some(Remote(data.elems[2])) && r.result == Nil
  {
    if !data.Arr? || |data.elems| != 4 then
      Reply(0, Nil, Some(InvalidFormat))
    else
      match ToInteger(data.elems[0])
      case Err(e) => Reply(0, Nil, Some(e))
      case Ok(msgType) =>
        if msgType != RESPONSE then
          Reply(0, Nil, Some(InvalidFormat))
        else
          var msgId := match ToInteger(data.elems[1]) case Ok(n) => n case Err(_) => 0;
          if data.elems[2] != Nil then
            Reply(ToUint32(msgId), Nil, Some(Remote(data.elems[2])))
          else
            Reply(ToUint32(msgId), data.elems[3], None)
  }

  /**
   * A well-formed success Response is accepted whatever integer kinds the
   * decoder chose for the tag and the id: its id and result come back intact.
   */
  lemma ResponseAccepted(tagKind: IntKind, idKind: IntKind, id: uint32, result: Value)
    requires InRange(tagKind, RESPONSE) && InRange(idKind, id)
    ensures ResponseOf(Arr([Int(tagKind, RESPONSE), Int(idKind, id), Nil, result])) == Reply(id, result, None)
  {
  }

  /** A Response with a non-nil error slot yields that error, the id, and no result. */
  lemma ResponseRemoteError(tagKind: IntKind, idKind: IntKind, id: uint32, error: Value, result: Value)
    requires InRange(tagKind, RESPONSE) && InRange(idKind, id) && error != Nil
    ensures ResponseOf(Arr([Int(tagKind, RESPONSE), Int(idKind, id), error, result])) == Reply(id, Nil, Some(Remote(error)))
  {
  }

  /** The client never mistakes one of its own Requests for a Response. */
  lemma RequestIsNoResponse(id: uint32, funcName: string, args: seq<Value>)
    ensures ResponseOf(RequestFrame(id, funcName, args).AsValue()).err == Some(InvalidFormat)
  {
  }

  // ---------------------------------------------------------------------------
  // Client state and its transitions, as values
  // ---------------------------------------------------------------------------

  /** The fields of the `Client` struct. */
  datatype ClientState = ClientState(
    conn: Option<Conn>,
    nextId: uint32,
    connTimeout: int,
    network: string,
    addr: string,
    autoReconnect: bool,
    disconnected: bool,
    connTime: int)

  /** The fields no transition except `SetAutoReconnect` and id allocation touches. */
  predicate SameSettings(a: ClientState, b: ClientState)
  {
    a.nextId == b.nextId && a.connTimeout == b.connTimeout && a.network == b.network
    && a.addr == b.addr && a.autoReconnect == b.autoReconnect
  }

  /** `connect`: `net.Dial` without a positive timeout, `net.DialTimeout` with one. */
  function DialVia(timeout: int): (m: DialMode)
    ensures m.Dial? <==> timeout <= 0
    ensures m.DialTimeout? ==> m.timeout == timeout
  {
    if timeout <= 0 then Dial else DialTimeout(timeout)
  }

  /** The optional variadic timeout of `Connect`: the first one given, else zero. */
  function FirstTimeout(timeouts: seq<int>): int
  {
    if |timeouts| > 0 then timeouts[0] else 0
  }

  /** The state `NewClient` and `Connect` build. */
  function Initial(conn: Conn, timeout: int, network: string, addr: string, now: int): (s: ClientState)
    ensures s.nextId == 1 && !s.disconnected && !s.autoReconnect
    ensures s.conn == Some(conn) && s.connTime == now
  {
    ClientState(Some(conn), 1, timeout, network, addr, false, false, now)
  }

  /** `Connect`: dial with the first timeout given; a client exists only if the dial succeeded. */
  function ConnectStep(network: string, addr: string, timeouts: seq<int>, now: int,
                       dial: DialMode -> DialOutcome): (r: Result<ClientState, ClientError>)
    ensures r.Ok? <==> dial(DialVia(FirstTimeout(timeouts))).Dialed?
    ensures r.Ok? ==> r.value.nextId == 1 && !r.value.disconnected && !r.value.autoReconnect
                      && r.value.connTimeout == FirstTimeout(timeouts) && r.value.connTime == now
    ensures r.Ok? ==> r.value.conn == Some(dial(DialVia(FirstTimeout(timeouts))).conn)
                      && r.value.network == network && r.value.addr == addr
    ensures r.Err? ==> r.error == Net(dial(DialVia(FirstTimeout(timeouts))).e)
  {
    var timeout := FirstTimeout(timeouts);
    match dial(DialVia(timeout))
    case Dialed(c) => Ok(Initial(c, timeout, network, addr, now))
    case DialFailed(e) => Err(Net(e))
  }

  /** A new state and the error the transition returned. */
  datatype Step = Step(state: ClientState, err: Option<ClientError>)

  /**
   * `Reconnect`: always resets `connTime`; replaces the connection with
   * the dial's; only a successful dial clears `disconnected`.
   */
  function ReconnectStep(s: ClientState, now: int, dial: DialMode -> DialOutcome): (r: Step)
    ensures r.state.connTime == now && SameSettings(r.state, s)
    ensures r.err.None? <==> dial(DialVia(s.connTimeout)).Dialed?
    ensures r.err.None? ==> !r.state.disconnected && r.state.conn == Some(dial(DialVia(s.connTimeout)).conn)
    ensures r.err.Some? ==> r.state.disconnected == s.disconnected && r.state.conn == None
                            && r.err.value == Net(dial(DialVia(s.connTimeout)).e)
  {
    match dial(DialVia(s.connTimeout))
    case Dialed(c) => Step(s.(connTime := now, conn := Some(c), disconnected := false), None)
    case DialFailed(e) => Step(s.(connTime := now, conn := None), Some(Net(e)))
  }

  /**
   * `checkConnect`: nothing happens unless the client is disconnected with
   * auto-reconnect on; then it reconnects once `ReconnectInterval` has
   * passed since `connTime`, and fails with "Connection is disconnected." before.
   */
  function CheckConnectStep(s: ClientState, now: int, dial: DialMode -> DialOutcome): (r: Step)
    ensures SameSettings(r.state, s)
    ensures !(s.disconnected && s.autoReconnect) ==> r == Step(s, None)
    ensures r.err == Some(Disconnected) <==>
              s.disconnected && s.autoReconnect && now - s.connTime <= ReconnectInterval
    ensures r.err == Some(Disconnected) ==> r.state == s
    ensures r.state != s ==> r.state.connTime == now
    ensures r.err.None? && s.autoReconnect ==> !r.state.disconnected && (s.disconnected ==> r.state.conn.Some?)
    ensures s.disconnected && s.autoReconnect && now - s.connTime > ReconnectInterval ==>
              r == ReconnectStep(s, now, dial)
  {
    if !s.disconnected || !s.autoReconnect then
      Step(s, None)
    else if now - s.connTime > ReconnectInterval then
      ReconnectStep(s, now, dial)
    else
      Step(s, Some(Disconnected))
  }

  /** `handleError`: with auto-reconnect on, an error marks the client disconnected; nothing clears the flag. */
  function HandleErrorStep(s: ClientState, err: Option<ClientError>): (r: ClientState)
    ensures r.disconnected == (s.disconnected || (s.autoReconnect && err.Some?))
    ensures r == s.(disconnected := r.disconnected)
  {
    if !s.autoReconnect then s
    else if err.Some? then s.(disconnected := true)
    else s
  }

  /** A new state, an error, and the frame handed to the connection's writer, if any. */
  datatype WriteResult = WriteResult(state: ClientState, err: Option<ClientError>, written: Option<Frame>)

  /** Encode and write a frame; either failure goes through `handleError`. */
  function WriteStep(s: ClientState, f: Frame, encode: IoOutcome, write: IoOutcome): (r: WriteResult)
    ensures r.written.Some? <==> encode.Done?
    ensures r.written.Some? ==> r.written.value == f
    ensures r.err.None? <==> encode.Done? && write.Done?
    ensures encode.IoFailed? ==> r.err == Some(Net(encode.e))
    ensures encode.Done? && write.IoFailed? ==> r.err == Some(Net(write.e))
    ensures r.state == HandleErrorStep(s, r.err)
  {
    if encode.IoFailed? then
      WriteResult(HandleErrorStep(s, Some(Net(encode.e))), Some(Net(encode.e)), None)
    else if write.IoFailed? then
      WriteResult(HandleErrorStep(s, Some(Net(write.e))), Some(Net(write.e)), Some(f))
    else
      WriteResult(s, None, Some(f))
  }

  /** `request`: write a Request frame carrying `id`. */
  function RequestStep(s: ClientState, id: uint32, funcName: string, args: seq<Value>,
                       encode: IoOutcome, write: IoOutcome): (r: WriteResult)
    ensures r.written.Some? <==> encode.Done?
    ensures r.written.Some? ==> r.written.value == RequestFrame(id, funcName, args)
    ensures r.err.None? <==> encode.Done? && write.Done?
    ensures r.err.Some? ==> r.err.value.Net?
    ensures encode.IoFailed? ==> r.err == Some(Net(encode.e))
    ensures encode.Done? && write.IoFailed? ==> r.err == Some(Net(write.e))
    ensures r.state == HandleErrorStep(s, r.err)
  {
    WriteStep(s, RequestFrame(id, funcName, args), encode, write)
  }

  /** A new state and the reply `response` returns. */
  datatype ReadResult = ReadResult(state: ClientState, reply: Reply)

  /**
   * `response`: a decoding failure goes through `handleError` and is returned
   * with id 0; a decoded value is validated by `ResponseOf` and never marks
   * the client disconnected.
   */
  function ResponseStep(s: ClientState, read: ReadOutcome): (r: ReadResult)
    ensures read.Decoded? ==> r == ReadResult(s, ResponseOf(read.data))
    ensures read.ReadFailed? ==> r.reply == Reply(0, Nil, Some(Net(read.e)))
                                 && r.state == HandleErrorStep(s, Some(Net(read.e)))
  {
    match read
    case ReadFailed(e) => ReadResult(HandleErrorStep(s, Some(Net(e))), Reply(0, Nil, Some(Net(e))))
    case Decoded(data) => ReadResult(s, ResponseOf(data))
  }

  /** What the network does during one `Call`. */
  datatype CallIo = CallIo(dial: DialMode -> DialOutcome, encode: IoOutcome, write: IoOutcome, read: ReadOutcome)

  /** What `Call` returns, its new state, the id it allocated, and the frame it wrote. */
  datatype CallResult = CallResult(
    state: ClientState,
    result: Value,
    err: Option<ClientError>,
    id: Option<uint32>,
    written: Option<Frame>)

  /** The reply a call reads from the network, once its request was written. */
  function ReplyOf(io: CallIo): Reply
  {
    match io.read
    case ReadFailed(e) => Reply(0, Nil, Some(Net(e)))
    case Decoded(data) => ResponseOf(data)
  }

  /**
   * `Call`: after `checkConnect` passes, take `nextId` as the message id and
   * advance it, even if what follows fails; write the Request, read the
   * Response, and fail with "Message IDs don't match" exactly when the ids differ.
   */
  function CallStep(s: ClientState, funcName: string, args: seq<Value>, now: int, io: CallIo): (r: CallResult)
    ensures r.state.autoReconnect == s.autoReconnect
    ensures CheckConnectStep(s, now, io.dial).err.Some? ==>
              r.id == None && r.written == None && r.state.nextId == s.nextId
              && r.err == CheckConnectStep(s, now, io.dial).err
    ensures CheckConnectStep(s, now, io.dial).err.None? ==>
              r.id == Some(s.nextId) && r.state.nextId == NextId(s.nextId)
    ensures r.written.Some? ==> r.written.value == RequestFrame(s.nextId, funcName, args)
    ensures r.err == Some(NilConnection) ==> r.written == None
    ensures (r.err.Some? && r.err.value.IdMismatch?) <==>
              r.written.Some? && io.write.Done? && ReplyOf(io).err.None? && ReplyOf(io).id != s.nextId
    ensures r.err.Some? && r.err.value.IdMismatch? ==>
              r.err.value == IdMismatch(s.nextId, ReplyOf(io).id) && r.result == ReplyOf(io).result
    ensures r.err.None? ==> r.written.Some? && r.result == ReplyOf(io).result && ReplyOf(io).id == s.nextId
    ensures CheckConnectStep(s, now, io.dial).err.None? ==>
              (CheckConnectStep(s, now, io.dial).state.conn.None? <==> r.err == Some(NilConnection))
              && (CheckConnectStep(s, now, io.dial).state.conn.Some? ==> (r.written.Some? <==> io.encode.Done?))
    ensures r.written.Some? && io.write.Done? && ReplyOf(io).err.None? && ReplyOf(io).id == s.nextId ==>
              r.err.None? && r.result == ReplyOf(io).result
    ensures r.written.Some? && io.write.Done? && ReplyOf(io).err.Some? ==>
              r.err == ReplyOf(io).err && r.result == ReplyOf(io).result
    ensures CheckConnectStep(s, now, io.dial).err.None? && CheckConnectStep(s, now, io.dial).state.conn.Some? ==>
              (io.encode.IoFailed? ==> r.err == Some(Net(io.encode.e)))
              && (io.encode.Done? && io.write.IoFailed? ==> r.err == Some(Net(io.write.e)))
    ensures CheckConnectStep(s, now, io.dial).err.Some? ==> r.state == CheckConnectStep(s, now, io.dial).state
    ensures CheckConnectStep(s, now, io.dial).err.None? ==>
              r.state == HandleErrorStep(CheckConnectStep(s, now, io.dial).state.(nextId := NextId(s.nextId)),
                                         if r.err.Some? && r.err.value.Net? then r.err else None)
  {
    var checked := CheckConnectStep(s, now, io.dial);
    if checked.err.Some? then
      CallResult(checked.state, Nil, checked.err, None, None)
    else
      var msgId := checked.state.nextId;
      var s1 := checked.state.(nextId := NextId(msgId));
      if s1.conn.None? then
        CallResult(s1, Nil, Some(NilConnection), Some(msgId), None)
      else
        var rq := RequestStep(s1, msgId, funcName, args, io.encode, io.write);
        if rq.err.Some? then
          CallResult(rq.state, Nil, rq.err, Some(msgId), rq.written)
        else
          var rs := ResponseStep(rq.state, io.read);
          if rs.reply.err.Some? then
            CallResult(rs.state, rs.reply.result, rs.reply.err, Some(msgId), rq.written)
          else if msgId != rs.reply.id then
            CallResult(rs.state, rs.reply.result, Some(IdMismatch(msgId, rs.reply.id)), Some(msgId), rq.written)
          else
            CallResult(rs.state, rs.reply.result, None, Some(msgId), rq.written)
  }

  /**
   * `Send`: after `checkConnect` passes, write a Notification frame. It
   * allocates no id and reads no reply.
   */
  function SendStep(s: ClientState, funcName: string, args: seq<Value>, now: int,
                    dial: DialMode -> DialOutcome, encode: IoOutcome, write: IoOutcome): (r: WriteResult)
    ensures r.state.nextId == s.nextId && r.state.autoReconnect == s.autoReconnect
    ensures CheckConnectStep(s, now, dial).err.Some? ==> r.err == CheckConnectStep(s, now, dial).err && r.written == None
    ensures r.written.Some? ==> r.written.value == NotificationFrame(funcName, args)
    ensures r.err.None? ==> r.written.Some?
    ensures CheckConnectStep(s, now, dial).err.None? && CheckConnectStep(s, now, dial).state.conn.Some? ==>
              (r.written.Some? <==> encode.Done?) && (r.err.None? <==> encode.Done? && write.Done?)
    ensures CheckConnectStep(s, now, dial).err.None? && CheckConnectStep(s, now, dial).state.conn.None? ==>
              r.written == None && r.err == if encode.Done? then Some(NilConnection) else Some(Net(encode.e))
    ensures CheckConnectStep(s, now, dial).err.None? && encode.IoFailed? ==> r.err == Some(Net(encode.e))
    ensures CheckConnectStep(s, now, dial).err.None? && CheckConnectStep(s, now, dial).state.conn.Some?
            && encode.Done? && write.IoFailed? ==>
              r.err == Some(Net(write.e))
    ensures CheckConnectStep(s, now, dial).err.Some? ==> r.state == CheckConnectStep(s, now, dial).state
    ensures CheckConnectStep(s, now, dial).err.None? ==>
              r.state == HandleErrorStep(CheckConnectStep(s, now, dial).state,
                                         if r.err.Some? && r.err.value.Net? then r.err else None)
  {
    var checked := CheckConnectStep(s, now, dial);
    if checked.err.Some? then
      WriteResult(checked.state, checked.err, None)
    else if encode.IoFailed? then
      WriteResult(HandleErrorStep(checked.state, Some(Net(encode.e))), Some(Net(encode.e)), None)
    else if checked.state.conn.None? then
      WriteResult(checked.state, Some(NilConnection), None)
    else
      WriteStep(checked.state, NotificationFrame(funcName, args), encode, write)
  }

  /**
   * Neither `Call` nor `Send` clears `disconnected` on its own: a client
   * that was disconnected is connected afterwards only when `checkConnect`
   * reconnected it, past `ReconnectInterval` and with a successful dial.
   */
  lemma OnlyReconnectClears(s: ClientState, funcName: string, args: seq<Value>, now: int, io: CallIo)
    ensures s.disconnected && !CallStep(s, funcName, args, now, io).state.disconnected ==>
              s.autoReconnect && now - s.connTime > ReconnectInterval && io.dial(DialVia(s.connTimeout)).Dialed?
    ensures s.disconnected && !SendStep(s, funcName, args, now, io.dial, io.encode, io.write).state.disconnected ==>
              s.autoReconnect && now - s.connTime > ReconnectInterval && io.dial(DialVia(s.connTimeout)).Dialed?
  {
  }

  // ---------------------------------------------------------------------------
  // Sequences of calls: message ids
  // ---------------------------------------------------------------------------

  /** One `Call` made by the application, with what the network does during it. */
  datatype CallInput = CallInput(funcName: string, args: seq<Value>, now: int, io: CallIo)

  /** The state after a run of calls and the ids the calls allocated, in order. */
  datatype RunResult = RunResult(state: ClientState, ids: seq<uint32>)

  function Run(s: ClientState, calls: seq<CallInput>): RunResult
    decreases |calls|
  {
    if calls == [] then RunResult(s, [])
    else
      var c := CallStep(s, calls[0].funcName, calls[0].args, calls[0].now, calls[0].io);
      var rest := Run(c.state, calls[1..]);
      RunResult(rest.state, (if c.id.Some? then [c.id.value] else []) + rest.ids)
  }

  /** `n` consecutive ids starting at `start`, wrapping after 2^32 - 1. */
  function Consecutive(start: uint32, n: nat): (r: seq<uint32>)
    ensures |r| == n
    decreases n
  {
    if n == 0 then [] else [start] + Consecutive(NextId(start), n - 1)
  }

  /** Over any run of calls, the allocated ids are consecutive from the starting `nextId`. */
  lemma {:induction false} RunAllocatesConsecutive(s: ClientState, calls: seq<CallInput>)
    ensures Run(s, calls).ids == Consecutive(s.nextId, |Run(s, calls).ids|)
    decreases |calls|
  {
    if calls != [] {
      var c := CallStep(s, calls[0].funcName, calls[0].args, calls[0].now, calls[0].io);
      RunAllocatesConsecutive(c.state, calls[1..]);
    }
  }

  /** The `i`th of `n` consecutive ids is `start + i` modulo 2^32. */
  lemma {:induction false} ConsecutiveAt(start: uint32, n: nat, i: nat)
    requires i < n
    ensures |Consecutive(start, n)| == n
    ensures Consecutive(start, n)[i] == (start + i) % Two32
    decreases n
  {
    if i == 0 {
      assert Consecutive(start, n)[0] == start;
    } else {
      ConsecutiveAt(NextId(start), n - 1, i - 1);
      ModShift(start, i);
    }
  }

  /** Advancing once and then `i - 1` times lands where advancing `i` times does. */
  lemma ModShift(start: uint32, i: nat)
    requires i > 0
    ensures (NextId(start) + (i - 1)) % Two32 == (start + i) % Two32
  {
  }

  /** Two numbers less than 2^32 apart differ modulo 2^32. */
  lemma ModDistinct(a: nat, d: nat)
    requires 0 < d < Two32
    ensures a % Two32 != (a + d) % Two32
  {
  }

  /** At most 2^32 consecutive ids are pairwise distinct. */
  lemma ConsecutiveDistinct(start: uint32, n: nat, i: nat, j: nat)
    requires i < j < n <= Two32
    ensures Consecutive(start, n)[i] != Consecutive(start, n)[j]
  {
    ConsecutiveAt(start, n, i);
    ConsecutiveAt(start, n, j);
    ModDistinct(start + i, j - i);
  }

  /**
   * Across any run of calls allocating at most 2^32 ids, all allocated ids
   * are pairwise distinct.
   */
  lemma RunIdsDistinct(s: ClientState, calls: seq<CallInput>)
    requires |Run(s, calls).ids| <= Two32
    ensures forall i, j :: 0 <= i < j < |Run(s, calls).ids| ==> Run(s, calls).ids[i] != Run(s, calls).ids[j]
  {
    var ids := Run(s, calls).ids;
    RunAllocatesConsecutive(s, calls);
    forall i, j | 0 <= i < j < |ids| ensures ids[i] != ids[j] {
      ConsecutiveDistinct(s.nextId, |ids|, i, j);
    }
  }

  // ---------------------------------------------------------------------------
  // The Client object
  // ---------------------------------------------------------------------------

  class Client {
    var conn: Option<Conn>
    var nextId: uint32
    var connTimeout: int
    var network: string
    var addr: string
    var autoReconnect: bool
    var disconnected: bool
    var connTime: int

    /** The struct's fields as a value. */
    function State(): ClientState
      reads this
    {
      ClientState(conn, nextId, connTimeout, network, addr, autoReconnect, disconnected, connTime)
    }

    /** `NewClient`: wrap an open connection whose remote address is `network`/`addr`. */
    constructor NewClient(c: Conn, network: string, addr: string, now: int)
      ensures State() == Initial(c, 0, network, addr, now)
    {
      this.conn := Some(c);
      this.nextId := 1;
      this.connTimeout := 0;
      this.network := network;
      this.addr := addr;
      this.autoReconnect := false;
      this.disconnected := false;
      this.connTime := now;
    }

    /** Used by `Connect` once the dial has succeeded. */
    constructor Dialed(c: Conn, timeout: int, network: string, addr: string, now: int)
      ensures State() == Initial(c, timeout, network, addr, now)
    {
      this.conn := Some(c);
      this.nextId := 1;
      this.connTimeout := timeout;
      this.network := network;
      this.addr := addr;
      this.autoReconnect := false;
      this.disconnected := false;
      this.connTime := now;
    }

    /** `Connect`: dial, and build a client only if the dial succeeded. */
    static method Connect(network: string, addr: string, timeouts: seq<int>, now: int,
                          dial: DialMode -> DialOutcome) returns (c: Client?, err: Option<ClientError>)
      ensures c == null <==> err.Some?
      ensures c != null ==> fresh(c) && ConnectStep(network, addr, timeouts, now, dial) == Ok(c.State())
      ensures c == null ==> ConnectStep(network, addr, timeouts, now, dial) == Err(err.value)
    {
      var timeout := 0;
      if |timeouts| > 0 {
        timeout := timeouts[0];
      }
      var outcome := dial(DialVia(timeout));
      if outcome.DialFailed? {
        return null, Some(Net(outcome.e));
      }
      c := new Client.Dialed(outcome.conn, timeout, network, addr, now);
      err := None;
    }

    method Reconnect(now: int, dial: DialMode -> DialOutcome) returns (err: Option<ClientError>)
      modifies this
      ensures Step(State(), err) == ReconnectStep(old(State()), now, dial)
    {
      connTime := now;
      // Closing the previous connection is I/O and not modelled.
      var outcome := dial(DialVia(connTimeout));
      if outcome.Dialed? {
        conn := Some(outcome.conn);
        disconnected := false;
        err := None;
      } else {
        conn := None;
        err := Some(Net(outcome.e));
      }
    }

    method SetAutoReconnect(autoReconnect: bool)
      modifies this
      ensures State() == old(State()).(autoReconnect := autoReconnect)
    {
      this.autoReconnect := autoReconnect;
    }

    method CheckConnect(now: int, dial: DialMode -> DialOutcome) returns (err: Option<ClientError>)
      modifies this
      ensures Step(State(), err) == CheckConnectStep(old(State()), now, dial)
    {
      if !disconnected || !autoReconnect {
        return None;
      }
      if now - connTime > ReconnectInterval {
        err := Reconnect(now, dial);
      } else {
        err := Some(Disconnected);
      }
    }

    method HandleError(err: Option<ClientError>)
      modifies this
      ensures State() == HandleErrorStep(old(State()), err)
    {
      if !autoReconnect {
        return;
      }
      if err.Some? {
        disconnected := true;
      }
    }

    method Request(msgId: uint32, funcName: string, args: seq<Value>, encode: IoOutcome, write: IoOutcome)
      returns (err: Option<ClientError>, written: Option<Frame>)
      modifies this
      ensures WriteResult(State(), err, written) == RequestStep(old(State()), msgId, funcName, args, encode, write)
    {
      written := None;
      if encode.IoFailed? {
        err := Some(Net(encode.e));
        HandleError(err);
        return;
      }
      written := Some(RequestFrame(msgId, funcName, args));
      err := None;
      if write.IoFailed? {
        err := Some(Net(write.e));
        HandleError(err);
      }
    }

    method Response(read: ReadOutcome) returns (reply: Reply)
      modifies this
      ensures ReadResult(State(), reply) == ResponseStep(old(State()), read)
    {
      if read.ReadFailed? {
        HandleError(Some(Net(read.e)));
        return Reply(0, Nil, Some(Net(read.e)));
      }
      reply := ResponseOf(read.data);
    }

    method Call(funcName: string, args: seq<Value>, now: int, io: CallIo)
      returns (result: Value, err: Option<ClientError>, id: Option<uint32>, written: Option<Frame>)
      modifies this
      ensures CallResult(State(), result, err, id, written) == CallStep(old(State()), funcName, args, now, io)
    {
      result, id, written := Nil, None, None;
      err := CheckConnect(now, io.dial);
      if err.Some? {
        return;
      }
      var msgId := nextId;
      nextId := NextId(nextId);
      id := Some(msgId);
      if conn.None? {
        err := Some(NilConnection);
        return;
      }
      err, written := Request(msgId, funcName, args, io.encode, io.write);
      if err.Some? {
        return;
      }
      var reply := Response(io.read);
      result, err := reply.result, reply.err;
      if err.Some? {
        return;
      }
      if msgId != reply.id {
        err := Some(IdMismatch(msgId, reply.id));
      }
    }

    method Send(funcName: string, args: seq<Value>, now: int, dial: DialMode -> DialOutcome,
                encode: IoOutcome, write: IoOutcome) returns (err: Option<ClientError>, written: Option<Frame>)
      modifies this
      ensures WriteResult(State(), err, written) == SendStep(old(State()), funcName, args, now, dial, encode, write)
    {
      written := None;
      err := CheckConnect(now, dial);
      if err.Some? {
        return;
      }
      if encode.IoFailed? {
        err := Some(Net(encode.e));
        HandleError(err);
        return;
      }
      if conn.None? {
        err := Some(NilConnection);
        return;
      }
      written := Some(NotificationFrame(funcName, args));
      if write.IoFailed? {
        err := Some(Net(write.e));
        HandleError(err);
      }
    }
  }
}
