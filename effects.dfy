/**
 * What the client code does to the outside world, recorded as a log: Redux
 * dispatches, Materialize toasts, localStorage writes, router navigation,
 * HTTP requests and calls into the signin thunk. A handler is modelled by
 * the sequence of entries it appends, in order.
 */
module Effects {
  import opened JsValue

  /** A Redux action: `{type, payload}`. */
  datatype Action = Action(tag: string, payload: Value)

  datatype Effect =
    | Dispatch(action: Action)
    | Toast(text: Value, duration: int, color: string)
    | StoreItem(key: string, value: string)
    | Navigate(path: string)
    | HttpPost(url: string, body: Value)
    | HttpGet(url: string, config: Value)
    | CallSignin(credentials: map<string, string>)

  /** How an HTTP promise settled: resolved with a response, or rejected with an error. */
  datatype Reply = Resolved(response: Value) | Rejected(error: Value)

  /**
   * Whether a handler ran to its end or stopped at a TypeError that nothing
   * catches (a synchronous throw or an unhandled promise rejection).
   */
  datatype Completion = Settled | Faulted

  datatype Run = Run(log: seq<Effect>, completion: Completion)

  /** The number of times `e` occurs in `log`. */
  function Count(log: seq<Effect>, e: Effect): nat {
    if log == [] then 0 else (if log[0] == e then 1 else 0) + Count(log[1..], e)
  }

  lemma {:induction false} CountAppend(a: seq<Effect>, b: seq<Effect>, e: Effect)
    ensures Count(a + b, e) == Count(a, e) + Count(b, e)
  {
    if a != [] {
      assert (a + b)[1..] == a[1..] + b;
      CountAppend(a[1..], b, e);
    } else {
      assert a + b == b;
    }
  }

  lemma {:induction false} CountAbsent(log: seq<Effect>, e: Effect)
    ensures Count(log, e) == 0 <==> e !in log
  {
    if log != [] {
      CountAbsent(log[1..], e);
      assert e in log <==> log[0] == e || e in log[1..];
    }
  }
}
