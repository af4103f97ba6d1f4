/** The client session object: options, publish, subscribe, flush, close,
    closed status, and lifecycle-event listeners. */
module Session {
  import opened Wrappers
  import opened Wire
  import opened Events

  // ---------------------------------------------------------------- options

  const DefaultUrl: string := "ws://localhost:4222"

  /** Resolved connection options. */
  datatype ConnectionOptions = ConnectionOptions(url: string)

  /** Options as a caller passes them: every field may be absent. */
  datatype CallerOptions = CallerOptions(url: Option<string>)

  /** Start from the defaults and copy every field the caller supplied. */
  function ResolveOptions(opts: CallerOptions): (r: ConnectionOptions)
    ensures opts.url.None? ==> r.url == DefaultUrl
    ensures opts.url.Some? ==> r.url == opts.url.value
  {
    match opts.url
    case None => ConnectionOptions(DefaultUrl)
    case Some(u) => ConnectionOptions(u)
  }

  // ---------------------------------------------------------- subscriptions

  /** The application's message callback, by identity. */
  datatype MsgCallback = MsgCallback(id: nat)

  /** The completion callback optionally handed to `flush`, by identity. */
  datatype FlushCallback = FlushCallback(id: nat)

  datatype SubscribeOptions = SubscribeOptions(queue: Option<string>, max: Option<int>)

  const NoSubscribeOptions := SubscribeOptions(None, None)

  /** A subscription request as handed to the protocol handler. */
  datatype Sub = Sub(subject: string, callback: MsgCallback, queue: Option<string>, max: Option<int>)

  /** Build a request on an empty object: copy the options, then set the
      subject and the callback. */
  function BuildSub(subject: string, cb: MsgCallback, opts: SubscribeOptions): (s: Sub)
    ensures s.subject == subject && s.callback == cb
    ensures s.queue == opts.queue && s.max == opts.max
  {
    Sub(subject, cb, opts.queue, opts.max)
  }

  /** The handle the protocol handler returns for a subscription. */
  datatype Subscription = Subscription(sid: nat, request: Sub)

  // ---------------------------------------------------------------- promises

  datatype NatsError = NatsError(message: string, code: string)

  const ClosedError := NatsError("closed", "closed")

  /** The state of a promise: the first settlement wins. */
  datatype Settlement<T> = Pending | Fulfilled(value: T) | Rejected(error: NatsError)

  function Resolve<T>(p: Settlement<T>, v: T): (q: Settlement<T>)
    ensures p.Pending? ==> q == Fulfilled(v)
    ensures !p.Pending? ==> q == p
  {
    if p.Pending? then Fulfilled(v) else p
  }

  function Reject<T>(p: Settlement<T>, e: NatsError): (q: Settlement<T>)
    ensures p.Pending? ==> q == Rejected(e)
    ensures !p.Pending? ==> q == p
  {
    if p.Pending? then Rejected(e) else p
  }

  /** A promise rejected first stays rejected whatever is resolved later:
      this is why the caller of the as-written `subscribe` on a closed
      session only ever sees the "closed" error. */
  lemma ResolveAfterRejectIsIgnored<T>(e: NatsError, v: T)
    ensures Resolve(Reject(Pending, e), v) == Rejected(e)
  {
  }

  // ---------------------------------------------------------- collaborators

  /** Stand-in for the transport: only its closed status is observed. */
  class Transport {
    var closed: bool

    constructor (closed: bool)
      ensures this.closed == closed
    {
      this.closed := closed;
    }
  }

  /** Stand-in for the protocol handler: it records every call the session
      makes on it. Its transport is fixed when it is created. */
  class ProtocolHandler {
    const transport: Transport
    var sent: seq<string>
    var subscriptions: seq<Sub>
    var flushes: seq<Option<FlushCallback>>
    var closeCalls: nat

    constructor (transport: Transport)
      ensures this.transport == transport
      ensures sent == [] && subscriptions == [] && flushes == [] && closeCalls == 0
    {
      this.transport := transport;
      sent, subscriptions, flushes, closeCalls := [], [], [], 0;
    }

    method SendCommand(m: string)
      modifies this`sent
      ensures sent == old(sent) + [m]
    {
      sent := sent + [m];
    }

    method Subscribe(s: Sub) returns (h: Subscription)
      modifies this`subscriptions
      ensures subscriptions == old(subscriptions) + [s]
      ensures h == Subscription(|old(subscriptions)|, s)
    {
      h := Subscription(|subscriptions|, s);
      subscriptions := subscriptions + [s];
    }

    method Flush(f: Option<FlushCallback>)
      modifies this`flushes
      ensures flushes == old(flushes) + [f]
    {
      flushes := flushes + [f];
    }

    method Close()
      modifies this`closeCalls
      ensures closeCalls == old(closeCalls) + 1
    {
      closeCalls := closeCalls + 1;
    }
  }

  /** What the protocol handler's own connect produced. */
  datatype Handshake = Handshaken(protocol: ProtocolHandler) | HandshakeFailed(reason: string)

  /** What `connect` settles with. */
  datatype ConnectResult = Connected(session: NatsConnection) | ConnectFailed(reason: string)

  // ----------------------------------------------------------------- publish

  /** What `publish` does: report an error to the error listeners, or send a command. */
  datatype PublishAction = ReportError(message: string) | Send(command: string)

  const SubjectRequired: string := "subject required"

  /** A missing or empty subject is reported and nothing is sent; otherwise
      exactly the `PUB` command for the subject and the (defaulted) data is sent. */
  function PublishOutcome(subject: Option<string>, data: Option<string>): (a: PublishAction)
    ensures a.ReportError? <==> OrEmpty(subject) == ""
    ensures a.ReportError? ==> a.message == SubjectRequired
    ensures a.Send? ==> a.command == PubCommand(subject.value, OrEmpty(data))
  {
    var s := OrEmpty(subject);
    if |s| == 0 then ReportError(SubjectRequired) else Send(PubCommand(s, OrEmpty(data)))
  }

  /** A published command on a token subject (non-empty, no whitespace) carries exactly that
      subject and the (defaulted) data, with the data's length in its header. */
  lemma PublishedCommandCarriesArguments(subject: string, data: Option<string>)
    requires IsToken(subject)
    ensures PublishOutcome(Some(subject), data).Send?
    ensures ParsePub(PublishOutcome(Some(subject), data).command) == Some(PubFrame(subject, OrEmpty(data)))
  {
    PubCommandRoundTrip(subject, OrEmpty(data));
  }

  // ----------------------------------------------------------------- session

  class NatsConnection {
    var options: ConnectionOptions
    var transport: Transport?
    var protocol: ProtocolHandler?
    var closeListeners: seq<Listener>
    var errorListeners: seq<Listener>
    /** Every listener call made so far, in order. */
    var invocations: seq<Invocation>

    /** Wired: both collaborators are set, and the transport is the protocol handler's. */
    ghost predicate Valid()
      reads this
    {
      protocol != null && transport != null && transport == protocol.transport
    }

    /** The shell `connect` builds before the handshake: resolved options,
        no listeners, no collaborators yet. */
    constructor (opts: CallerOptions)
      ensures options == ResolveOptions(opts)
      ensures transport == null && protocol == null
      ensures closeListeners == [] && errorListeners == [] && invocations == []
    {
      options := ResolveOptions(opts);
      transport, protocol := null, null;
      closeListeners, errorListeners, invocations := [], [], [];
    }

    /** Exactly one outcome: a fully wired session, or the handshake's error. */
    static method Connect(opts: CallerOptions, handshake: Handshake) returns (r: ConnectResult)
      ensures handshake.HandshakeFailed? ==> r == ConnectFailed(handshake.reason)
      ensures handshake.Handshaken? ==>
        && r.Connected? && fresh(r.session) && r.session.Valid()
        && r.session.protocol == handshake.protocol
        && r.session.transport == handshake.protocol.transport
        && r.session.options == ResolveOptions(opts)
        && r.session.closeListeners == [] && r.session.errorListeners == []
        && r.session.invocations == []
    {
      var nc := new NatsConnection(opts);
      match handshake
      case Handshaken(ph) =>
        nc.protocol := ph;
        nc.transport := ph.transport;
        r := Connected(nc);
      case HandshakeFailed(reason) =>
        r := ConnectFailed(reason);
    }

    /** Forwards to the protocol handler; no session field changes. */
    method Close()
      requires Valid()
      modifies protocol`closeCalls
      ensures protocol.closeCalls == old(protocol.closeCalls) + 1
    {
      protocol.Close();
    }

    method Publish(subject: Option<string>, data: Option<string>)
      requires Valid()
      modifies this`invocations, protocol`sent
      ensures Valid()
      ensures PublishOutcome(subject, data).ReportError? ==>
        && protocol.sent == old(protocol.sent)
        && invocations == old(invocations) + Deliveries(errorListeners, ErrorArg(SubjectRequired))
      ensures PublishOutcome(subject, data).Send? ==>
        && protocol.sent == old(protocol.sent) + [PublishOutcome(subject, data).command]
        && invocations == old(invocations)
    {
      var s := OrEmpty(subject);
      if |s| == 0 {
        ErrorHandler(SubjectRequired);
        return;
      }
      var d := OrEmpty(data);
      var m := "PUB " + s + " " + Decimal(|d|) + "\r\n" + d + "\r\n";
      protocol.SendCommand(m);
    }

    /** Returns after rejecting: a closed session forwards no request, and
        the promise settles exactly once. */
    method Subscribe(subject: string, cb: MsgCallback, opts: SubscribeOptions) returns (p: Settlement<Subscription>)
      requires Valid()
      modifies protocol`subscriptions
      ensures !p.Pending?
      ensures old(transport.closed) ==>
        p == Rejected(ClosedError) && protocol.subscriptions == old(protocol.subscriptions)
      ensures !old(transport.closed) ==>
        && protocol.subscriptions == old(protocol.subscriptions) + [BuildSub(subject, cb, opts)]
        && p == Fulfilled(Subscription(|old(protocol.subscriptions)|, BuildSub(subject, cb, opts)))
    {
      p := Pending;
      if IsClosed() {
        p := Reject(p, ClosedError);
        return;
      }
      var s := BuildSub(subject, cb, opts);
      var h := protocol.Subscribe(s);
      p := Resolve(p, h);
    }

    /** `subscribe` as the code has it: the reject does not return, so a
        closed session still builds and forwards the request, and the later
        resolve is ignored by the already rejected promise. */
    method SubscribeAsWritten(subject: string, cb: MsgCallback, opts: SubscribeOptions) returns (p: Settlement<Subscription>)
      requires Valid()
      modifies protocol`subscriptions
      ensures protocol.subscriptions == old(protocol.subscriptions) + [BuildSub(subject, cb, opts)]
      ensures old(transport.closed) ==> p == Rejected(ClosedError)
      ensures !old(transport.closed) ==>
        p == Fulfilled(Subscription(|old(protocol.subscriptions)|, BuildSub(subject, cb, opts)))
    {
      p := Pending;
      if IsClosed() {
        p := Reject(p, ClosedError);
      }
      var s := BuildSub(subject, cb, opts);
      var h := protocol.Subscribe(s);
      p := Resolve(p, h);
    }

    /** Forwards to the protocol handler, completion callback included. */
    method Flush(f: Option<FlushCallback>)
      requires Valid()
      modifies protocol`flushes
      ensures protocol.flushes == old(protocol.flushes) + [f]
    {
      protocol.Flush(f);
    }

    /** One listener call inside a try/catch: the call is recorded, and a
        throw ends there. */
    method InvokeIsolated(l: Listener, arg: EventArg)
      modifies this`invocations
      ensures invocations == old(invocations) + [Invoke(l, arg)]
    {
      var outcome := if l.throws then Threw else Returned;
      invocations := invocations + [Invocation(l, arg, outcome)];
    }

    /** Calls every listener of `listeners` in order through InvokeIsolated. */
    method Dispatch(listeners: seq<Listener>, arg: EventArg)
      modifies this`invocations
      ensures invocations == old(invocations) + Deliveries(listeners, arg)
    {
      var i := 0;
      while i < |listeners|
        invariant 0 <= i <= |listeners|
        invariant invocations == old(invocations) + Deliveries(listeners[..i], arg)
      {
        assert listeners[..i + 1][..i] == listeners[..i];
        InvokeIsolated(listeners[i], arg);
        i := i + 1;
      }
      assert listeners[..i] == listeners;
    }

    /** Every error listener is called once with the error, in registration
        order; the listener lists themselves do not change. */
    method ErrorHandler(message: string)
      modifies this`invocations
      ensures invocations == old(invocations) + Deliveries(errorListeners, ErrorArg(message))
    {
      Dispatch(errorListeners, ErrorArg(message));
    }

    /** Every close listener is called once, in registration order; the
        listener lists themselves do not change. */
    method CloseHandler()
      modifies this`invocations
      ensures invocations == old(invocations) + Deliveries(closeListeners, NoArg)
    {
      Dispatch(closeListeners, NoArg);
    }

    /** Appends to the list of the given kind; the other list is untouched. */
    method AddEventListener(kind: EventKind, l: Listener)
      modifies this`closeListeners, this`errorListeners
      ensures kind.Close? ==> closeListeners == old(closeListeners) + [l] && errorListeners == old(errorListeners)
      ensures kind.Error? ==> errorListeners == old(errorListeners) + [l] && closeListeners == old(closeListeners)
    {
      if kind.Close? {
        closeListeners := closeListeners + [l];
      } else {
        errorListeners := errorListeners + [l];
      }
    }

    /** The transport's status, read anew on every call. */
    function IsClosed(): (closed: bool)
      reads this, transport
      requires Valid()
      ensures closed == transport.closed
    {
      transport.closed
    }
  }

  // ------------------------------------------------- subscribe on a closed session

  /** A session whose transport reports closed, as the code has it: the
      caller sees the "closed" rejection, yet one request reached the
      protocol handler. */
  method ClosedSubscribeAsWritten() returns (forwarded: nat, settled: Settlement<Subscription>)
    ensures forwarded == 1 && settled == Rejected(ClosedError)
  {
    var t := new Transport(true);
    var ph := new ProtocolHandler(t);
    var r := NatsConnection.Connect(CallerOptions(None), Handshaken(ph));
    var nc := r.session;
    settled := nc.SubscribeAsWritten("foo", MsgCallback(0), NoSubscribeOptions);
    forwarded := |ph.subscriptions|;
  }

  /** The same session with the corrected `subscribe`: rejected, and nothing forwarded. */
  method ClosedSubscribe() returns (forwarded: nat, settled: Settlement<Subscription>)
    ensures forwarded == 0 && settled == Rejected(ClosedError)
  {
    var t := new Transport(true);
    var ph := new ProtocolHandler(t);
    var r := NatsConnection.Connect(CallerOptions(None), Handshaken(ph));
    var nc := r.session;
    settled := nc.Subscribe("foo", MsgCallback(0), NoSubscribeOptions);
    forwarded := |ph.subscriptions|;
  }

  /** An open session: the handle returned is for the subject asked for. */
  method OpenSubscribe() returns (forwarded: nat, settled: Settlement<Subscription>)
    ensures forwarded == 1 && settled.Fulfilled? && settled.value.request.subject == "foo"
  {
    var t := new Transport(false);
    var ph := new ProtocolHandler(t);
    var r := NatsConnection.Connect(CallerOptions(None), Handshaken(ph));
    var nc := r.session;
    settled := nc.Subscribe("foo", MsgCallback(0), NoSubscribeOptions);
    forwarded := |ph.subscriptions|;
  }

  // ------------------------------------------------------ listeners at work

  /** Two close listeners, the first of which throws: both are called, in
      the order they were registered. */
  method CloseWithThrowingListener() returns (called: seq<Listener>)
    ensures called == [Listener(1, true), Listener(2, false)]
  {
    var t := new Transport(false);
    var ph := new ProtocolHandler(t);
    var r := NatsConnection.Connect(CallerOptions(Some("ws://x")), Handshaken(ph));
    var nc := r.session;
    nc.AddEventListener(Close, Listener(1, true));
    nc.AddEventListener(Error, Listener(3, false));
    nc.AddEventListener(Close, Listener(2, false));
    assert nc.closeListeners == [Listener(1, true), Listener(2, false)];
    nc.CloseHandler();
    assert nc.invocations == Deliveries(nc.closeListeners, NoArg);
    DispatchCallsEveryListener(nc.closeListeners, NoArg);
    called := Called(nc.invocations);
  }

  /** Publishing without a subject: the error listener hears "subject
      required" once and nothing reaches the protocol handler. */
  method PublishWithoutSubject() returns (sent: seq<string>, heard: seq<Invocation>)
    ensures sent == []
    ensures heard == [Invocation(Listener(7, false), ErrorArg("subject required"), Returned)]
  {
    var t := new Transport(false);
    var ph := new ProtocolHandler(t);
    var r := NatsConnection.Connect(CallerOptions(None), Handshaken(ph));
    var nc := r.session;
    nc.AddEventListener(Error, Listener(7, false));
    nc.Publish(None, Some("hello"));
    sent, heard := ph.sent, nc.invocations;
  }
}
