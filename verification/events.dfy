/** Lifecycle event listeners and what dispatching an event to them does. */
module Events {

  /** The two event kinds a session accepts listeners for. */
  datatype EventKind = Close | Error

  /** A registered listener: an identity, and whether calling it throws.
      Listeners that call back into the session are outside this model. */
  datatype Listener = Listener(id: nat, throws: bool)

  /** What a listener is called with: nothing for `close`, the error for `error`. */
  datatype EventArg = NoArg | ErrorArg(message: string)

  datatype Outcome = Returned | Threw

  /** One call of one listener, with how that call ended. */
  datatype Invocation = Invocation(listener: Listener, arg: EventArg, outcome: Outcome)

  /** Calling a listener inside a try/catch: a throw is recorded and goes no further. */
  function Invoke(l: Listener, arg: EventArg): Invocation
  {
    Invocation(l, arg, if l.throws then Threw else Returned)
  }

  /** The calls one dispatch makes: every listener of the list, once, in
      registration order, whatever the earlier ones did. */
  function Deliveries(listeners: seq<Listener>, arg: EventArg): (r: seq<Invocation>)
    ensures |r| == |listeners|
    ensures forall k :: 0 <= k < |listeners| ==>
      r[k].listener == listeners[k] && r[k].arg == arg && (r[k].outcome == Threw <==> listeners[k].throws)
  {
    if listeners == [] then []
    else Deliveries(listeners[..|listeners| - 1], arg) + [Invoke(listeners[|listeners| - 1], arg)]
  }

  /** The listeners a run of invocations called, in call order. */
  function Called(r: seq<Invocation>): (ls: seq<Listener>)
    ensures |ls| == |r|
    ensures forall k :: 0 <= k < |r| ==> ls[k] == r[k].listener
  {
    if r == [] then [] else Called(r[..|r| - 1]) + [r[|r| - 1].listener]
  }

  /** Dispatch calls exactly the registered listeners, in registration order,
      each registration once: no listener is skipped because another threw. */
  lemma DispatchCallsEveryListener(listeners: seq<Listener>, arg: EventArg)
    ensures Called(Deliveries(listeners, arg)) == listeners
  {
  }

  /** Dispatching over a list that grew by registration calls the old list
      first and the new listeners after it. */
  lemma DeliveriesAppend(a: seq<Listener>, b: seq<Listener>, arg: EventArg)
    ensures Deliveries(a + b, arg) == Deliveries(a, arg) + Deliveries(b, arg)
  {
  }

  /** Isolation: whether listener `k` throws changes only its own recorded
      outcome; every other call in the dispatch is the same. */
  lemma ThrowIsIsolated(listeners: seq<Listener>, k: nat, arg: EventArg)
    requires k < |listeners|
    ensures var flipped := listeners[k := listeners[k].(throws := !listeners[k].throws)];
      forall j :: 0 <= j < |listeners| && j != k ==>
        Deliveries(flipped, arg)[j] == Deliveries(listeners, arg)[j]
  {
  }
}
