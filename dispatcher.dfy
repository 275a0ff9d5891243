/**
 * The dispatcher's registry and message shapes (include/rpc/dispatcher.h):
 * `EventManager` maps each bound name to one type-erased adaptor, and
 * `default_dispatcher` fixes the call and notification tuples, the
 * `request_type` codes and what `dispatch` promises with and without
 * exception suppression.
 *
 * An adaptor is opaque: an identity and the arity taken from the bound
 * function's signature. Running it is a parameter `run` of the dispatch.
 */
module Dispatcher {
  import opened Wrappers
  import opened MsgPack

  type int8 = n: int | -0x80 <= n < 0x80

  /** A bound functor after type erasure: its identity and its parameter count. */
  datatype Adaptor = Adaptor(handle: nat, arity: nat)

  datatype DispatchError =
    | DuplicateName(name: string)                       // from `enforce_unique_name`
    | ArgCount(func: string, found: nat, expected: nat) // from `enforce_arg_count`
    | MethodNotFound(name: string)
    | NotAMessage                                       // neither a call nor a notification tuple
    | ParamsNotArray(name: string)                      // parameters not convertible to an argument tuple
    | Threw(name: string, what: string)                 // the bound function threw

  /**
   * `enforce_arg_count`: fails exactly when the number of arguments found
   * differs from the number expected. It is static: no registry is involved.
   */
  function EnforceArgCount(func: string, found: nat, expected: nat): (r: Outcome<DispatchError>)
    ensures r.Fail? <==> found != expected
    ensures r.Fail? ==> r.error == ArgCount(func, found, expected)
  {
    if found != expected then Fail(ArgCount(func, found, expected)) else Pass
  }

  // ---------------------------------------------------------------------------
  // The registry as a value
  // ---------------------------------------------------------------------------

  /** A registry after a `bind`, with the outcome of that `bind`. */
  datatype Registered = Registered(funcs: map<string, Adaptor>, outcome: Outcome<DispatchError>)

  /**
   * `bind`: `enforce_unique_name` first, so an already bound name is
   * rejected and its binding stays; a new name gains exactly its adaptor.
   */
  function BindStep(funcs: map<string, Adaptor>, name: string, f: Adaptor): (r: Registered)
    ensures r.outcome.Fail? <==> name in funcs
    ensures r.outcome.Fail? ==> r.outcome.error == DuplicateName(name) && r.funcs == funcs
    ensures r.funcs.Keys == funcs.Keys + {name}
    ensures r.funcs[name] == if name in funcs then funcs[name] else f
    ensures forall n :: n in funcs ==> r.funcs[n] == funcs[n]
  {
    if name in funcs then Registered(funcs, Fail(DuplicateName(name)))
    else Registered(funcs[name := f], Pass)
  }

  /** One `bind(name, func)` call. */
  datatype Binding = Binding(name: string, adaptor: Adaptor)

  /** The registry after a series of `bind` calls, failed ones included. */
  function BindAll(funcs: map<string, Adaptor>, binds: seq<Binding>): map<string, Adaptor>
    decreases |binds|
  {
    if binds == [] then funcs
    else BindAll(BindStep(funcs, binds[0].name, binds[0].adaptor).funcs, binds[1..])
  }

  /** The adaptor of the first `bind` of `name` in `binds`, if there is one. */
  function FirstBinding(binds: seq<Binding>, name: string): (r: Option<Adaptor>)
    ensures r.Some? <==> exists i :: 0 <= i < |binds| && binds[i].name == name
    decreases |binds|
  {
    if binds == [] then None
    else if binds[0].name == name then Some(binds[0].adaptor)
    else
      var r := FirstBinding(binds[1..], name);
      assert forall i :: 1 <= i < |binds| ==> binds[i] == binds[1..][i - 1];
      r
  }

  /**
   * After any series of `bind` calls each name is bound to the adaptor it
   * already had, or else to the adaptor of its first `bind`; later binds of
   * the same name change nothing.
   */
  lemma {:induction false} BindAllFirstWins(funcs: map<string, Adaptor>, binds: seq<Binding>)
    ensures forall n :: n in BindAll(funcs, binds) <==> n in funcs || FirstBinding(binds, n).Some?
    ensures forall n :: n in BindAll(funcs, binds) ==>
              BindAll(funcs, binds)[n] == if n in funcs then funcs[n] else FirstBinding(binds, n).value
    decreases |binds|
  {
    if binds != [] {
      var next := BindStep(funcs, binds[0].name, binds[0].adaptor).funcs;
      BindAllFirstWins(next, binds[1..]);
    }
  }

  // ---------------------------------------------------------------------------
  // Message shapes
  // ---------------------------------------------------------------------------

  /** `enum class request_type { notification = 2, call = 1 }`. */
  datatype RequestType = NotificationType | CallType

  function Code(t: RequestType): int
  {
    match t
    case NotificationType => 2
    case CallType => 1
  }

  /** The request type a code stands for, if any: the inverse of `Code`. */
  function RequestTypeOf(code: int): (r: Option<RequestType>)
    ensures r.Some? <==> code == 1 || code == 2
    ensures r.Some? ==> Code(r.value) == code
    ensures forall t :: Code(t) == code ==> r == Some(t)
  {
    if code == 1 then Some(CallType)
    else if code == 2 then Some(NotificationType)
    else None
  }

  /** `call_t`: `(int8 type, uint32 id, string method, params)`. */
  datatype CallT = CallT(typ: int8, id: uint32, name: string, params: Value)

  /** `notification_t`: `(int8 type, string method, params)`. */
  datatype NotificationT = NotificationT(typ: int8, name: string, params: Value)

  datatype Message = CallMsg(call: CallT) | NotificationMsg(note: NotificationT)

  /** `msg` converts to `call_t`. */
  predicate IsCallShape(msg: Value)
  {
    msg.Arr? && |msg.elems| == 4
    && msg.elems[0].Int? && InRange(I8, msg.elems[0].n)
    && msg.elems[1].Int? && InRange(U32, msg.elems[1].n)
    && msg.elems[2].Str?
  }

  /** `msg` converts to `notification_t`. */
  predicate IsNotificationShape(msg: Value)
  {
    msg.Arr? && |msg.elems| == 3
    && msg.elems[0].Int? && InRange(I8, msg.elems[0].n)
    && msg.elems[1].Str?
  }

  /**
   * Conversion of a decoded object to one of the two tuples; the type
   * element is converted to `int8` but not compared with `request_type`.
   */
  function Classify(msg: Value): (r: Result<Message, DispatchError>)
    ensures r.Ok? <==> IsCallShape(msg) || IsNotificationShape(msg)
    ensures r.Err? ==> r.error == NotAMessage
    ensures r.Ok? && r.value.CallMsg? ==>
              IsCallShape(msg) && r.value.call.typ == msg.elems[0].n && r.value.call.id == msg.elems[1].n
              && r.value.call.name == msg.elems[2].s && r.value.call.params == msg.elems[3]
    ensures r.Ok? && r.value.NotificationMsg? ==>
              IsNotificationShape(msg) && r.value.note.typ == msg.elems[0].n && r.value.note.name == msg.elems[1].s && r.value.note.params == msg.elems[2]
  {
    if IsCallShape(msg) then
      Ok(CallMsg(CallT(msg.elems[0].n, msg.elems[1].n, msg.elems[2].s, msg.elems[3])))
    else if IsNotificationShape(msg) then
      Ok(NotificationMsg(NotificationT(msg.elems[0].n, msg.elems[1].s, msg.elems[2])))
    else
      Err(NotAMessage)
  }

  /** A `call_t` packed as a msgpack array. */
  function CallValue(c: CallT): Value
  {
    Arr([Int(I8, c.typ), Int(U32, c.id), Str(c.name), c.params])
  }

  /** A `notification_t` packed as a msgpack array. */
  function NotificationValue(n: NotificationT): Value
  {
    Arr([Int(I8, n.typ), Str(n.name), n.params])
  }

  /** Packing a call and converting it back yields the same call. */
  lemma CallRoundTrip(c: CallT)
    ensures Classify(CallValue(c)) == Ok(CallMsg(c))
  {
  }

  /** Packing a notification and converting it back yields the same notification. */
  lemma NotificationRoundTrip(n: NotificationT)
    ensures Classify(NotificationValue(n)) == Ok(NotificationMsg(n))
  {
  }

  // ---------------------------------------------------------------------------
  // Dispatch
  // ---------------------------------------------------------------------------

  /** What running an adaptor does: return a value (none for a void function) or throw. */
  datatype InvokeOutcome = Returned(result: Option<Value>) | Raised(what: string)

  /** A Response: exactly one of error and result is set, or neither for a void function. */
  datatype Response = Response(id: uint32, error: Option<DispatchError>, result: Option<Value>)

  datatype DispatchOutcome =
    | Respond(response: Response)   // a response for the client
    | Silent                        // nothing goes back to the client
    | Throw(error: DispatchError)   // the exception leaves `dispatch`

  /** Look `name` up, check the argument count, and run its adaptor. */
  function Invoke(funcs: map<string, Adaptor>, name: string, params: Value,
                  run: (Adaptor, Value) -> InvokeOutcome): (r: Result<Option<Value>, DispatchError>)
    ensures name !in funcs ==> r == Err(MethodNotFound(name))
    ensures name in funcs && params.Arr? && |params.elems| != funcs[name].arity ==>
              r == Err(ArgCount(name, |params.elems|, funcs[name].arity))
    ensures r.Ok? <==> name in funcs && params.Arr? && |params.elems| == funcs[name].arity
                       && run(funcs[name], params).Returned?
    ensures r.Ok? ==> r.value == run(funcs[name], params).result
  {
    if name !in funcs then Err(MethodNotFound(name))
    else if !params.Arr? then Err(ParamsNotArray(name))
    else
      var f := funcs[name];
      match EnforceArgCount(name, |params.elems|, f.arity)
      case Fail(e) => Err(e)
      case Pass =>
        match run(f, params)
        case Returned(v) => Ok(v)
        case Raised(what) => Err(Threw(name, what))
  }

  /**
   * `dispatch(msg, suppress_exceptions)`. A message that is neither tuple
   * always throws. A call is answered with its own id: with its result, or
   * with MethodNotFound when the name is unbound; any other failure becomes
   * an error response with suppression on and throws with it off. A
   * notification never produces a response; an unbound name is dropped, and
   * any other failure throws only with suppression off.
   */
  function Dispatch(funcs: map<string, Adaptor>, msg: Value, suppress: bool,
                    run: (Adaptor, Value) -> InvokeOutcome): (r: DispatchOutcome)
    ensures Classify(msg).Err? ==> r == Throw(NotAMessage)
    ensures Classify(msg).Ok? && Classify(msg).value.CallMsg? ==>
              var c := Classify(msg).value.call;
              var inv := Invoke(funcs, c.name, c.params, run);
              (inv.Ok? ==> r == Respond(Response(c.id, None, inv.value)))
              && (inv.Err? && (suppress || inv.error.MethodNotFound?) ==> r == Respond(Response(c.id, Some(inv.error), None)))
              && (inv.Err? && !suppress && !inv.error.MethodNotFound? ==> r == Throw(inv.error))
    ensures Classify(msg).Ok? && Classify(msg).value.NotificationMsg? ==>
              var n := Classify(msg).value.note;
              var inv := Invoke(funcs, n.name, n.params, run);
              (inv.Ok? || suppress || inv.error.MethodNotFound? ==> r == Silent)
              && (inv.Err? && !suppress && !inv.error.MethodNotFound? ==> r == Throw(inv.error))
    ensures r.Respond? ==> Classify(msg).Ok? && Classify(msg).value.CallMsg?
                           && r.response.id == Classify(msg).value.call.id
    ensures r.Respond? ==> r.response.error.None? || r.response.result.None?
    ensures Classify(msg).Ok? && Classify(msg).value.NotificationMsg? ==> !r.Respond?
    ensures suppress && Classify(msg).Ok? ==> !r.Throw?
    ensures r.Throw? ==> r.error == NotAMessage || (!suppress && !r.error.MethodNotFound?)
  {
    match Classify(msg)
    case Err(e) => Throw(e)
    case Ok(CallMsg(c)) =>
      (match Invoke(funcs, c.name, c.params, run)
       case Ok(v) => Respond(Response(c.id, None, v))
       case Err(e) =>
         if suppress || e.MethodNotFound? then Respond(Response(c.id, Some(e), None)) else Throw(e))
    case Ok(NotificationMsg(n)) =>
      (match Invoke(funcs, n.name, n.params, run)
       case Ok(_) => Silent
       case Err(e) => if suppress || e.MethodNotFound? then Silent else Throw(e))
  }

  /**
   * A name nobody bound: whatever the suppression flag, a call is answered
   * with MethodNotFound under its own id and a notification is dropped.
   */
  lemma UnboundCallAnswered(funcs: map<string, Adaptor>, c: CallT, n: NotificationT,
                            run: (Adaptor, Value) -> InvokeOutcome, suppress: bool)
    requires c.name !in funcs && n.name !in funcs
    ensures Dispatch(funcs, CallValue(c), suppress, run) == Respond(Response(c.id, Some(MethodNotFound(c.name)), None))
    ensures Dispatch(funcs, NotificationValue(n), suppress, run) == Silent
  {
    CallRoundTrip(c);
    NotificationRoundTrip(n);
  }

  /**
   * Binding a new name and then calling it with as many arguments as its
   * arity runs that adaptor and answers with its result; binding the same
   * name again fails and the call still reaches the first adaptor.
   */
  lemma BindThenCall(funcs: map<string, Adaptor>, f: Adaptor, g: Adaptor, c: CallT,
                      run: (Adaptor, Value) -> InvokeOutcome, suppress: bool)
    requires c.name !in funcs
    requires c.params.Arr? && |c.params.elems| == f.arity
    requires run(f, c.params).Returned?
    ensures var once := BindStep(funcs, c.name, f);
            var twice := BindStep(once.funcs, c.name, g);
            once.outcome == Pass && twice.outcome == Fail(DuplicateName(c.name))
            && Dispatch(twice.funcs, CallValue(c), suppress, run) == Respond(Response(c.id, None, run(f, c.params).result))
  {
  }

  // ---------------------------------------------------------------------------
  // The objects
  // ---------------------------------------------------------------------------

  /** `EventManager`: owns the name-to-adaptor map and does the binding. */
  class EventManager {
    var funcs: map<string, Adaptor>

    constructor()
      ensures funcs == map[]
    {
      funcs := map[];
    }

    /** `enforce_unique_name`: fails exactly when `func` is already bound. */
    method EnforceUniqueName(func: string) returns (r: Outcome<DispatchError>)
      ensures r.Fail? <==> func in funcs
      ensures r.Fail? ==> r.error == DuplicateName(func)
    {
      if func in funcs {
        return Fail(DuplicateName(func));
      }
      return Pass;
    }

    /** `bind(name, func)`, with the adaptor the tag-dispatched overloads build. */
    method Bind(name: string, f: Adaptor) returns (r: Outcome<DispatchError>)
      modifies this
      ensures Registered(funcs, r) == BindStep(old(funcs), name, f)
    {
      r := EnforceUniqueName(name);
      if r.Pass? {
        funcs := funcs[name := f];
      }
    }

    /** `operator=`: this registry takes the other's map; the other is unchanged. */
    method Assign(a: EventManager) returns (self: EventManager)
      modifies this
      ensures self == this
      ensures funcs == old(a.funcs) && a.funcs == old(a.funcs)
      ensures funcs.Keys == a.funcs.Keys
    {
      funcs := a.funcs;
      return this;
    }
  }

  /** `default_dispatcher`: an `EventManager` plus the dispatch entry point. */
  class DefaultDispatcher {
    var eventHandle: EventManager

    constructor()
      ensures fresh(eventHandle) && eventHandle.funcs == map[]
    {
      eventHandle := new EventManager();
    }

    /**
     * `dispatch(object, suppress_exceptions = false)` over the bound
     * functions: a call to a bound name with as many arguments as its arity
     * is answered under its id with what the adaptor returns, a call to an
     * unbound name with MethodNotFound, and a notification never.
     */
    method DispatchObject(msg: Value, run: (Adaptor, Value) -> InvokeOutcome, suppress: bool := false)
      returns (r: DispatchOutcome)
      ensures r == Dispatch(eventHandle.funcs, msg, suppress, run)
      ensures IsCallShape(msg) && msg.elems[2].s in eventHandle.funcs && msg.elems[3].Arr?
              && |msg.elems[3].elems| == eventHandle.funcs[msg.elems[2].s].arity
              && run(eventHandle.funcs[msg.elems[2].s], msg.elems[3]).Returned? ==>
                r == Respond(Response(msg.elems[1].n, None, run(eventHandle.funcs[msg.elems[2].s], msg.elems[3]).result))
      ensures IsCallShape(msg) && msg.elems[2].s !in eventHandle.funcs ==>
                r == Respond(Response(msg.elems[1].n, Some(MethodNotFound(msg.elems[2].s)), None))
      ensures IsNotificationShape(msg) ==> !r.Respond?
      ensures !IsCallShape(msg) && !IsNotificationShape(msg) ==> r == Throw(NotAMessage)
      ensures r.Respond? ==> IsCallShape(msg) && r.response.id == msg.elems[1].n
      ensures suppress && (IsCallShape(msg) || IsNotificationShape(msg)) ==> !r.Throw?
      ensures suppress && IsCallShape(msg) ==> r.Respond?
      ensures !suppress && IsCallShape(msg) && msg.elems[2].s in eventHandle.funcs
              && Invoke(eventHandle.funcs, msg.elems[2].s, msg.elems[3], run).Err? ==>
                r.Throw?
    {
      r := Dispatch(eventHandle.funcs, msg, suppress, run);
    }
  }
}
