/**
 * The server of lib/rpc/server.cc with the reactor, the sockets and the
 * worker threads stripped away: a `server` owns an `impl` through `pimpl`,
 * the `impl` keeps the registry of live sessions, the exception-suppression
 * flag new sessions capture, and whether an accept is armed.
 *
 * An accept completion is an input event (success or failure); binding the
 * acceptor is given as an outcome.
 */
module Server {
  import opened Wrappers
  import opened MsgPack
  import Dispatcher

  // ---------------------------------------------------------------------------
  // Removing one session from the registry
  // ---------------------------------------------------------------------------

  /** Position of the first element equal to `x`, or `|xs|` when there is none (`std::find`). */
  function IndexOf<T(==)>(xs: seq<T>, x: T): (i: nat)
    ensures i <= |xs|
    ensures i < |xs| ==> xs[i] == x
    ensures forall j :: 0 <= j < i ==> xs[j] != x
    ensures i == |xs| <==> x !in xs
    decreases |xs|
  {
    if xs == [] then 0
    else if xs[0] == x then 0
    else 1 + IndexOf(xs[1..], x)
  }

  /** `xs` without its first occurrence of `x`; `xs` itself when `x` does not occur. */
  function EraseFirst<T(==)>(xs: seq<T>, x: T): seq<T>
    decreases |xs|
  {
    if xs == [] then []
    else if xs[0] == x then xs[1..]
    else [xs[0]] + EraseFirst(xs[1..], x)
  }

  /** Erasing the first occurrence cuts out exactly the element `std::find` locates. */
  lemma {:induction false} EraseFirstAt<T>(xs: seq<T>, x: T)
    ensures IndexOf(xs, x) < |xs| ==>
              EraseFirst(xs, x) == xs[..IndexOf(xs, x)] + xs[IndexOf(xs, x) + 1..]
    ensures x !in xs ==> EraseFirst(xs, x) == xs
    decreases |xs|
  {
    if xs != [] && xs[0] != x {
      EraseFirstAt(xs[1..], x);
      if IndexOf(xs, x) < |xs| {
        var i := IndexOf(xs[1..], x);
        assert xs[..i + 1] == [xs[0]] + xs[1..][..i];
        assert xs[i + 2..] == xs[1..][i + 1..];
      } else {
        assert xs == [xs[0]] + xs[1..];
      }
    }
  }

  /** Erasing removes one occurrence of `x` if there is one, and nothing else. */
  lemma {:induction false} EraseFirstCount<T>(xs: seq<T>, x: T)
    ensures multiset(EraseFirst(xs, x)) == multiset(xs) - multiset{x}
    ensures |EraseFirst(xs, x)| == if x in xs then |xs| - 1 else |xs|
    decreases |xs|
  {
    if xs != [] {
      assert xs == [xs[0]] + xs[1..];
      if xs[0] != x {
        EraseFirstCount(xs[1..], x);
      }
    }
  }

  /** `std::find` over the registry. */
  method Find<T(==)>(xs: seq<T>, x: T) returns (i: nat)
    ensures i == IndexOf(xs, x)
  {
    i := 0;
    while i < |xs| && xs[i] != x
      invariant i <= |xs|
      invariant forall j :: 0 <= j < i ==> xs[j] != x
    {
      i := i + 1;
    }
  }

  // ---------------------------------------------------------------------------
  // Sessions, the implementation object and the server
  // ---------------------------------------------------------------------------

  /** Where the acceptor listens: all IPv4 interfaces, or one address. */
  datatype Endpoint = AnyV4(port: uint16) | At(address: string, port: uint16)

  /** Opening, binding or listening on the acceptor failed. */
  datatype BindError = BindError(code: nat)

  /** `server_session`, reduced to what the server observes of it. */
  class Session {
    /** Non-owning back-reference to the server that accepted the connection. */
    const parent: Server
    /** The server's suppression flag at the moment the session was created. */
    const suppressExceptions: bool
    var started: bool
    var closed: bool

    constructor(parent: Server, suppress: bool)
      ensures this.parent == parent && suppressExceptions == suppress
      ensures !started && !closed
    {
      this.parent := parent;
      suppressExceptions := suppress;
      started, closed := false, false;
    }

    /** `start`: begin reading from the connection. */
    method Start()
      modifies this
      ensures started && closed == old(closed)
    {
      started := true;
    }

    /** `close`: request that the connection be closed. */
    method Close()
      modifies this
      ensures closed && started == old(started)
    {
      closed := true;
    }
  }

  /** `server::impl`. */
  class Impl {
    /** The server that created this object; moving the server does not update it. */
    const parent: Server
    var endpoint: Option<Endpoint>
    var listening: bool
    var acceptArmed: bool
    var sessions: seq<Session>
    var suppressExceptions: bool
    var reactorStopped: bool
    /** Loop workers started by `async_run` and not yet joined. */
    var workers: nat

    /** The port and address constructors: the acceptor opens, binds and listens at once. */
    constructor Listening(parent: Server, e: Endpoint)
      ensures this.parent == parent && endpoint == Some(e) && listening && !acceptArmed
      ensures sessions == [] && !suppressExceptions && !reactorStopped && workers == 0
    {
      this.parent := parent;
      endpoint, listening, acceptArmed := Some(e), true, false;
      sessions, suppressExceptions := [], false;
      reactorStopped, workers := false, 0;
    }

    /** The constructor without an endpoint: the acceptor stays closed. */
    constructor Unbound(parent: Server)
      ensures this.parent == parent && endpoint == None && !listening && !acceptArmed
      ensures sessions == [] && !suppressExceptions && !reactorStopped && workers == 0
    {
      this.parent := parent;
      endpoint, listening, acceptArmed := None, false, false;
      sessions, suppressExceptions := [], false;
      reactorStopped, workers := false, 0;
    }

    /** `accept(address, port)` / `accept(port)`: open, bind and listen, or fail. */
    method Accept(e: Endpoint, bound: Outcome<BindError>) returns (r: Outcome<BindError>)
      modifies this
      ensures r == bound
      ensures r.Pass? ==> endpoint == Some(e) && listening
      ensures r.Fail? ==> endpoint == old(endpoint) && listening == old(listening)
      ensures acceptArmed == old(acceptArmed) && sessions == old(sessions)
      ensures suppressExceptions == old(suppressExceptions)
      ensures reactorStopped == old(reactorStopped) && workers == old(workers)
    {
      if bound.Fail? {
        return bound;
      }
      endpoint, listening := Some(e), true;
      r := Pass;
    }

    /** `start_accept`: arm one asynchronous accept. */
    method StartAccept()
      modifies this
      ensures acceptArmed
      ensures endpoint == old(endpoint) && listening == old(listening) && sessions == old(sessions)
      ensures suppressExceptions == old(suppressExceptions)
      ensures reactorStopped == old(reactorStopped) && workers == old(workers)
    {
      acceptArmed := true;
    }

    /**
     * The completion handler of `start_accept`: on success one new, started
     * session capturing the current suppression flag joins the registry; on
     * failure the registry is unchanged. The completion consumes the armed
     * accept, and either way a new one is armed.
     */
    method AcceptCompleted(ok: bool) returns (s: Session?)
      requires acceptArmed
      modifies this
      ensures ok ==> s != null && fresh(s) && sessions == old(sessions) + [s]
                     && s.started && !s.closed && s.parent == parent
                     && s.suppressExceptions == suppressExceptions
      ensures !ok ==> s == null && sessions == old(sessions)
      ensures acceptArmed
      ensures endpoint == old(endpoint) && listening == old(listening)
      ensures suppressExceptions == old(suppressExceptions)
      ensures reactorStopped == old(reactorStopped) && workers == old(workers)
    {
      acceptArmed := false;
      s := null;
      if ok {
        s := new Session(parent, suppressExceptions);
        s.Start();
        sessions := sessions + [s];
      }
      StartAccept();
    }

    /** `close_sessions`: close every tracked session, then forget them all. */
    method CloseSessions()
      modifies this, sessions
      ensures sessions == []
      ensures forall s :: s in old(sessions) ==> s.closed && s.started == old(s.started)
      ensures endpoint == old(endpoint) && listening == old(listening) && acceptArmed == old(acceptArmed)
      ensures suppressExceptions == old(suppressExceptions)
      ensures reactorStopped == old(reactorStopped) && workers == old(workers)
    {
      var i := 0;
      while i < |sessions|
        invariant 0 <= i <= |sessions|
        invariant unchanged(this)
        invariant forall j :: 0 <= j < i ==> sessions[j].closed
        invariant forall s :: s in sessions ==> s.started == old(s.started)
      {
        sessions[i].Close();
        i := i + 1;
      }
      sessions := [];
    }

    /** `stop`: stop the reactor, then join every loop worker. */
    method Stop()
      modifies this
      ensures reactorStopped && workers == 0
      ensures endpoint == old(endpoint) && listening == old(listening) && acceptArmed == old(acceptArmed)
      ensures sessions == old(sessions) && suppressExceptions == old(suppressExceptions)
    {
      reactorStopped := true;
      workers := 0;
    }
  }

  /** `server`: owns its `impl` and a dispatcher. */
  class Server {
    var pimpl: Impl?
    var disp: Dispatcher.DefaultDispatcher?

    /** `server(port)`: listen on all IPv4 interfaces and start accepting. */
    constructor FromPort(port: uint16)
      ensures pimpl != null && fresh(pimpl) && disp != null && fresh(disp)
      ensures pimpl.parent == this && pimpl.endpoint == Some(AnyV4(port))
      ensures pimpl.listening && pimpl.acceptArmed
      ensures pimpl.sessions == [] && !pimpl.suppressExceptions && !pimpl.reactorStopped && pimpl.workers == 0
      ensures disp.eventHandle.funcs == map[]
    {
      disp := new Dispatcher.DefaultDispatcher();
      pimpl := null;
      new;
      pimpl := new Impl.Listening(this, AnyV4(port));
      pimpl.StartAccept();
    }

    /** `server(address, port)`: listen on `address` and start accepting. */
    constructor FromAddress(address: string, port: uint16)
      ensures pimpl != null && fresh(pimpl) && disp != null && fresh(disp)
      ensures pimpl.parent == this && pimpl.endpoint == Some(At(address, port))
      ensures pimpl.listening && pimpl.acceptArmed
      ensures pimpl.sessions == [] && !pimpl.suppressExceptions && !pimpl.reactorStopped && pimpl.workers == 0
      ensures disp.eventHandle.funcs == map[]
    {
      disp := new Dispatcher.DefaultDispatcher();
      pimpl := null;
      new;
      pimpl := new Impl.Listening(this, At(address, port));
      pimpl.StartAccept();
    }

    /** `server()`: no endpoint; nothing is accepted until `accept`. */
    constructor NoEndpoint()
      ensures pimpl != null && fresh(pimpl) && disp != null && fresh(disp)
      ensures pimpl.parent == this && pimpl.endpoint == None
      ensures !pimpl.listening && !pimpl.acceptArmed
      ensures pimpl.sessions == [] && !pimpl.suppressExceptions && !pimpl.reactorStopped && pimpl.workers == 0
      ensures disp.eventHandle.funcs == map[]
    {
      disp := new Dispatcher.DefaultDispatcher();
      pimpl := null;
      new;
      pimpl := new Impl.Unbound(this);
    }

    /** `server(default_dispatcher*)`: no endpoint, and the caller's dispatcher. */
    constructor WithDispatcher(d: Dispatcher.DefaultDispatcher?)
      ensures pimpl != null && fresh(pimpl) && disp == d
      ensures pimpl.parent == this && pimpl.endpoint == None
      ensures !pimpl.listening && !pimpl.acceptArmed
      ensures pimpl.sessions == [] && !pimpl.suppressExceptions && !pimpl.reactorStopped && pimpl.workers == 0
    {
      disp := d;
      pimpl := null;
      new;
      pimpl := new Impl.Unbound(this);
    }

    /** `server(server&&)`: take over the other server's state, leaving it null. */
    constructor MoveFrom(other: Server)
      modifies other
      ensures pimpl == old(other.pimpl) && disp == old(other.disp)
      ensures other.pimpl == null && other.disp == null
    {
      pimpl, disp := other.pimpl, other.disp;
      new;
      other.pimpl := null;
      other.disp := null;
    }

    /** `accept(address, port)` / `accept(port)`: bind the acceptor, then start accepting. */
    method Accept(e: Endpoint, bound: Outcome<BindError>) returns (r: Outcome<BindError>)
      requires pimpl != null
      modifies pimpl
      ensures r == bound
      ensures r.Pass? ==> pimpl.endpoint == Some(e) && pimpl.listening && pimpl.acceptArmed
      ensures r.Fail? ==> pimpl.endpoint == old(pimpl.endpoint) && pimpl.listening == old(pimpl.listening)
                          && pimpl.acceptArmed == old(pimpl.acceptArmed)
      ensures pimpl.sessions == old(pimpl.sessions) && pimpl.suppressExceptions == old(pimpl.suppressExceptions)
      ensures pimpl.reactorStopped == old(pimpl.reactorStopped) && pimpl.workers == old(pimpl.workers)
    {
      r := pimpl.Accept(e, bound);
      if r.Fail? {
        return;
      }
      pimpl.StartAccept();
    }

    /**
     * Move-assignment: take `pimpl` and `disp` from `other` and leave both
     * null there. Moving a server onto itself leaves it null.
     */
    method MoveAssign(other: Server) returns (self: Server)
      modifies this, other
      ensures self == this
      ensures other.pimpl == null && other.disp == null
      ensures this != other ==> pimpl == old(other.pimpl) && disp == old(other.disp)
      ensures this != other && old(other.pimpl) != null && old(other.pimpl.parent) == other ==>
                pimpl.parent == other && pimpl.parent != this
    {
      pimpl := other.pimpl;
      other.pimpl := null;
      disp := other.disp;
      other.disp := null;
      return this;
    }

    /** `~server`: stop only when `pimpl` is non-null; a moved-from server is left alone. */
    method Destroy()
      modifies pimpl
      ensures pimpl == old(pimpl)
      ensures pimpl != null ==> pimpl.reactorStopped && pimpl.workers == 0
                                && pimpl.sessions == old(pimpl.sessions)
    {
      if pimpl != null {
        pimpl.Stop();
      }
    }

    /** `suppress_exceptions(b)`: sessions created from now on capture `b`. */
    method SuppressExceptions(suppress: bool)
      requires pimpl != null
      modifies pimpl
      ensures pimpl.suppressExceptions == suppress
      ensures pimpl.sessions == old(pimpl.sessions) && pimpl.acceptArmed == old(pimpl.acceptArmed)
      ensures pimpl.listening == old(pimpl.listening) && pimpl.endpoint == old(pimpl.endpoint)
      ensures pimpl.reactorStopped == old(pimpl.reactorStopped) && pimpl.workers == old(pimpl.workers)
    {
      pimpl.suppressExceptions := suppress;
    }

    /** `async_run(n)`: start `n` more workers on the shared reactor. */
    method AsyncRun(n: nat)
      requires pimpl != null
      modifies pimpl
      ensures pimpl.workers == old(pimpl.workers) + n
      ensures pimpl.reactorStopped == old(pimpl.reactorStopped) && pimpl.sessions == old(pimpl.sessions)
      ensures pimpl.suppressExceptions == old(pimpl.suppressExceptions) && pimpl.acceptArmed == old(pimpl.acceptArmed)
      ensures pimpl.listening == old(pimpl.listening) && pimpl.endpoint == old(pimpl.endpoint)
    {
      pimpl.workers := pimpl.workers + n;
    }

    method Stop()
      requires pimpl != null
      modifies pimpl
      ensures pimpl.reactorStopped && pimpl.workers == 0 && pimpl.sessions == old(pimpl.sessions)
      ensures pimpl.endpoint == old(pimpl.endpoint) && pimpl.listening == old(pimpl.listening)
      ensures pimpl.acceptArmed == old(pimpl.acceptArmed) && pimpl.suppressExceptions == old(pimpl.suppressExceptions)
    {
      pimpl.Stop();
    }

    method CloseSessions()
      requires pimpl != null
      modifies pimpl, pimpl.sessions
      ensures pimpl.sessions == []
      ensures forall s :: s in old(pimpl.sessions) ==> s.closed && s.started == old(s.started)
      ensures pimpl.endpoint == old(pimpl.endpoint) && pimpl.listening == old(pimpl.listening)
      ensures pimpl.acceptArmed == old(pimpl.acceptArmed) && pimpl.suppressExceptions == old(pimpl.suppressExceptions)
      ensures pimpl.reactorStopped == old(pimpl.reactorStopped) && pimpl.workers == old(pimpl.workers)
    {
      pimpl.CloseSessions();
    }

    /**
     * `close_session(s)`: erase the first registry entry equal to `s`,
     * keeping the order of the rest. `s` itself is not closed.
     */
    method CloseSession(s: Session)
      requires pimpl != null
      modifies pimpl
      ensures pimpl.sessions == EraseFirst(old(pimpl.sessions), s)
      ensures pimpl.suppressExceptions == old(pimpl.suppressExceptions) && pimpl.acceptArmed == old(pimpl.acceptArmed)
      ensures pimpl.reactorStopped == old(pimpl.reactorStopped) && pimpl.workers == old(pimpl.workers)
      ensures pimpl.listening == old(pimpl.listening) && pimpl.endpoint == old(pimpl.endpoint)
    {
      var i := Find(pimpl.sessions, s);
      EraseFirstAt(pimpl.sessions, s);
      if i < |pimpl.sessions| {
        pimpl.sessions := pimpl.sessions[..i] + pimpl.sessions[i + 1..];
      }
    }
  }

  /**
   * Moving one server into another and then destroying the moved-from one
   * leaves the implementation it handed over exactly as it was: the new
   * owner still runs it.
   */
  method MoveThenDestroySource(target: Server, source: Server)
    requires target != source && source.pimpl != null
    modifies target, source
    ensures target.pimpl == old(source.pimpl) && source.pimpl == null
    ensures unchanged(target.pimpl)
  {
    var _ := target.MoveAssign(source);
    source.Destroy();
  }
}
