/**
 * How the Go client's envelopes meet the C++ dispatcher. The dispatcher
 * converts a message by its tuple shape, so a Go Request reaches it as a
 * `call_t` even though the Go client tags Requests with 0 and
 * `request_type::call` is 1; both constants are kept as written.
 */
module Interop {
  import opened Wrappers
  import opened MsgPack
  import GoClient
  import Dispatcher

  /**
   * A Go Request converts to `call_t` with its id, name and arguments
   * intact. Its type element is 0, which is no `request_type` code.
   */
  lemma GoRequestIsCall(id: uint32, funcName: string, args: seq<Value>)
    ensures Dispatcher.Classify(GoClient.RequestFrame(id, funcName, args).AsValue())
            == Ok(Dispatcher.CallMsg(Dispatcher.CallT(GoClient.REQUEST, id, funcName, Arr(args))))
    ensures GoClient.REQUEST != Dispatcher.Code(Dispatcher.CallType)
    ensures Dispatcher.RequestTypeOf(GoClient.REQUEST) == None
  {
  }

  /** A Go Notification converts to `notification_t`, and its tag is `request_type::notification`. */
  lemma GoNotificationIsNotification(funcName: string, args: seq<Value>)
    ensures Dispatcher.Classify(GoClient.NotificationFrame(funcName, args).AsValue())
            == Ok(Dispatcher.NotificationMsg(Dispatcher.NotificationT(GoClient.NOTIFICATION, funcName, Arr(args))))
    ensures Dispatcher.RequestTypeOf(GoClient.NOTIFICATION) == Some(Dispatcher.NotificationType)
  {
  }

  /** Whatever the registry and the suppression flag, a Go Notification is never answered. */
  lemma GoNotificationNeverAnswered(funcs: map<string, Dispatcher.Adaptor>, funcName: string, args: seq<Value>,
                                    suppress: bool, run: (Dispatcher.Adaptor, Value) -> Dispatcher.InvokeOutcome)
    ensures !Dispatcher.Dispatch(funcs, GoClient.NotificationFrame(funcName, args).AsValue(), suppress, run).Respond?
  {
  }

  /**
   * A Go Request for a bound function called with as many arguments as its
   * arity is answered under the Go id; packed as a msgpack-rpc Response and
   * decoded with any integer kinds, the Go client accepts it as the reply to
   * that very Request, with the function's result.
   */
  lemma GoCallRoundTrip(funcs: map<string, Dispatcher.Adaptor>, id: uint32, funcName: string, args: seq<Value>,
                        suppress: bool, run: (Dispatcher.Adaptor, Value) -> Dispatcher.InvokeOutcome,
                        tagKind: IntKind, idKind: IntKind)
    requires funcName in funcs && |args| == funcs[funcName].arity
    requires run(funcs[funcName], Arr(args)).Returned? && run(funcs[funcName], Arr(args)).result.Some?
    requires InRange(tagKind, GoClient.RESPONSE) && InRange(idKind, id)
    ensures var d := Dispatcher.Dispatch(funcs, GoClient.RequestFrame(id, funcName, args).AsValue(), suppress, run);
            d.Respond? && d.response.id == id && d.response.error.None? && d.response.result.Some?
            && GoClient.ResponseOf(Arr([Int(tagKind, GoClient.RESPONSE), Int(idKind, d.response.id), Nil, d.response.result.value]))
               == GoClient.Reply(id, run(funcs[funcName], Arr(args)).result.value, None)
  {
  }
}
