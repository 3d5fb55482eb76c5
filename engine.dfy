/**
 * The runtime RpcGenSourceGeneratorAnalyzer.cs emits into each class: the id counter
 * `_rpcNextId`, the table `_rpcPending` of callers waiting for a Response, the RunAsync loop
 * that reads envelopes and either resolves a waiting caller or dispatches to a handler, the
 * Send*Async writers and the outbound stubs. The emitted text is parameterised by the class's
 * plan (module AnalyzerGen); the transport is reduced to the list of envelopes written to it
 * and the sequence of parsed messages its ReadAsync yields.
 */
module Engine {
  import opened Wrappers
  import opened Json
  import opened Wire
  import opened Symbols
  import opened AnalyzerGen

  // ---------------------------------------------------------------- values

  /** The TaskCompletionSource of one waiting caller; tickets tell registrations apart. */
  datatype Slot = Slot(ticket: nat)

  /** How a waiting caller's task is completed: TrySetResult(payload) or TrySetException(RpcRemoteException). */
  datatype Completion = Succeeded(payload: Value) | RemoteFailed(message: string)

  /** A pending entry removed by a Response and completed. */
  datatype Resolution = Resolution(id: Int64, slot: Slot, completion: Completion)

  /** What the user's handler does when a case calls it: returns (a value, ignored unless Task<T>) or throws. */
  datatype HandlerOutcome = Returned(result: Value) | Threw(message: string)

  /** A call of the handler `methodName` with the request's payload. */
  datatype Invocation = Invocation(methodName: string, payload: Value)

  /** An exception that escapes RunAsync (ending it) or a stub call. */
  datatype Fault =
    | DecodeFault(error: JsonError)  // a required envelope member is missing or of the wrong kind
    | ErrorNotString                  // `err` is present, not null and not a string: GetString throws
    | MalformedRequest                // the payload does not deserialize into the request DTO
    | NullRequest                     // the payload is `null` and the handler arguments dereference `req!`
    | HandlerFault(message: string)   // the handler threw
    | NotAttached                     // RunAsync before AttachTransport
    | NoTransport                     // an awaited stub, or a reply, without a transport
    | NotSupported                    // a stub whose return type is neither void nor a Task
    | MalformedResponse               // a Task<T> response payload that is not an object
    | NullResponse                    // a Task<T> response payload that is `null`
    | DocumentDisposed                // a Task<T> stub reads an element of a JsonDocument already disposed

  /** Everything one message does: the new table, what is written, who is completed or called, and what escapes. */
  datatype Effect = Effect(
    pending: map<Int64, Slot>,
    sent: seq<Value>,
    resolved: Option<Resolution>,
    invoked: Option<Invocation>,
    fault: Option<Fault>)

  /** The initial value of `_rpcNextId`. */
  const InitialNextId: Int64 := 1

  // ---------------------------------------------------------------- inbound

  /** The text a null method name has inside an interpolated string: the empty string. */
  function MethodText(m: Option<string>): string {
    match m
    case Some(s) => s
    case None => ""
  }

  /** The error text the switch's default case sends. */
  function UnknownMethodMessage(m: Option<string>): string {
    "Unknown inbound method '" + MethodText(m) + "'"
  }

  /** `{"result": v}`: the Task<T> response DTO `{ Result = v }` under the camelCase naming policy. */
  function ResultObject(v: Value): (r: Value)
    ensures r.Object? && Find(r.members, "result") == Some(v)
  {
    Object([Member("result", v)])
  }

  /** The first switch case labelled with the method name; a null name matches none. */
  function FindCase(cases: seq<InboundCase>, methodName: Option<string>): (r: Option<nat>)
    ensures r.None? <==> methodName.None? || forall k :: 0 <= k < |cases| ==> cases[k].methodName != methodName.value
    ensures r.Some? ==> r.value < |cases| && methodName == Some(cases[r.value].methodName)
                        && forall k :: 0 <= k < r.value ==> cases[k].methodName != methodName.value
    decreases |cases|
  {
    if methodName.None? || |cases| == 0 then None
    else if cases[0].methodName == methodName.value then Some(0)
    else match FindCase(cases[1..], methodName)
      case None => None
      case Some(k) => Some(k + 1)
  }

  /**
   * Deserializing the payload into the request DTO and building the handler's arguments
   * `req!.X`, which only a case that calls a handler with parameters does.
   */
  function ArgumentFault(payload: Value, c: InboundCase): (r: Option<Fault>)
    ensures payload.Object? ==> r.None?
    ensures payload.Null? ==> (r.Some? <==> |c.arguments| > 0 && !c.action.RejectUnsupported?)
    ensures !payload.Object? && !payload.Null? ==> r == Some(MalformedRequest)
  {
    match BindRequest(payload, |c.arguments| > 0 && !c.action.RejectUnsupported?)
    case None => None
    case Some(NotDeserializable) => Some(MalformedRequest)
    case Some(NullDereference) => Some(NullRequest)
  }

  /** The Response a handler's return leads to: none, `{}`, or `{"result": v}`. */
  function Reply(iface: string, id: Int64, action: InboundAction, v: Value): seq<Value> {
    match action
    case InvokeOnly => []
    case InvokeThenAcknowledge => [EncodeResponse(iface, id, None)]
    case InvokeThenReturnResult(_) => [EncodeResponse(iface, id, Some(ResultObject(v)))]
    case RejectUnsupported => [EncodeError(iface, id, UnsupportedInbound)]
  }

  /** One switch case: deserialize the request, then call the handler and reply, or reject the return type. */
  function RunCase(iface: string, c: InboundCase, pending: map<Int64, Slot>, env: Envelope, outcome: HandlerOutcome): Effect {
    match ArgumentFault(env.payload, c)
    case Some(f) => Effect(pending, [], None, None, Some(f))
    case None =>
      if c.action == RejectUnsupported then Effect(pending, [EncodeError(iface, env.id, UnsupportedInbound)], None, None, None)
      else
        var call := Some(Invocation(c.methodName, env.payload));
        match outcome
        case Threw(msg) => Effect(pending, [], None, call, Some(HandlerFault(msg)))
        case Returned(v) => Effect(pending, Reply(iface, env.id, c.action, v), None, call, None)
  }

  /** A Response: TryRemove the id; complete the caller with the error text or the payload. */
  function ResolveResponse(pending: map<Int64, Slot>, env: Envelope): Effect {
    if env.id !in pending then Effect(pending, [], None, None, None)
    else
      var slot := pending[env.id];
      var rest := pending - {env.id};
      if !HasError(env) then Effect(rest, [], Some(Resolution(env.id, slot, Succeeded(env.payload))), None, None)
      else match env.err.value
        case Str(s) => Effect(rest, [], Some(Resolution(env.id, slot, RemoteFailed(s))), None, None)
        case _ => Effect(rest, [], None, None, Some(ErrorNotString))
  }

  /** The loop body after decoding: only kind 1 is a Response; every other kind goes to the switch. */
  function Dispatch(plan: ClassPlan, pending: map<Int64, Slot>, env: Envelope, outcome: HandlerOutcome): Effect {
    if env.kind == ResponseKind then ResolveResponse(pending, env)
    else match FindCase(plan.cases, env.methodName)
      case None => Effect(pending, [EncodeError(plan.inboundIface, env.id, UnknownMethodMessage(env.methodName))], None, None, None)
      case Some(k) => RunCase(plan.inboundIface, plan.cases[k], pending, env, outcome)
  }

  /** One iteration of RunAsync on a parsed message; `outcome` is what the handler would do if called. */
  function Receive(plan: ClassPlan, pending: map<Int64, Slot>, msg: Value, outcome: HandlerOutcome): Effect {
    match Decode(msg)
    case Failure(e) => Effect(pending, [], None, None, Some(DecodeFault(e)))
    case Success(env) => Dispatch(plan, pending, env, outcome)
  }

  /** One message read from the transport, with what its handler would do. */
  datatype Delivery = Delivery(msg: Value, outcome: HandlerOutcome)

  /** What RunAsync does over a sequence of messages: the table, writes, completions and calls, and the escaping fault. */
  datatype RunResult = RunResult(
    pending: map<Int64, Slot>,
    sent: seq<Value>,
    resolved: seq<Resolution>,
    invoked: seq<Invocation>,
    fault: Option<Fault>)

  function OptionToSeq<T>(o: Option<T>): seq<T> {
    match o
    case Some(x) => [x]
    case None => []
  }

  /** The effects of one message, followed by those of the rest of the run. */
  function Then(e: Effect, rest: RunResult): RunResult {
    RunResult(rest.pending, e.sent + rest.sent, OptionToSeq(e.resolved) + rest.resolved,
              OptionToSeq(e.invoked) + rest.invoked, rest.fault)
  }

  /** RunAsync's loop: the messages in order, stopping at the first one whose processing throws. */
  function Run(plan: ClassPlan, pending: map<Int64, Slot>, ds: seq<Delivery>): RunResult
    decreases |ds|
  {
    if |ds| == 0 then RunResult(pending, [], [], [], None)
    else
      var e := Receive(plan, pending, ds[0].msg, ds[0].outcome);
      if e.fault.Some? then Then(e, RunResult(e.pending, [], [], [], e.fault))
      else Then(e, Run(plan, e.pending, ds[1..]))
  }

  /** The run `r`, with writes, completions and calls already made before it. */
  function After(sent: seq<Value>, resolved: seq<Resolution>, invoked: seq<Invocation>, r: RunResult): RunResult {
    RunResult(r.pending, sent + r.sent, resolved + r.resolved, invoked + r.invoked, r.fault)
  }

  /** One step of Run. */
  lemma RunUnfold(plan: ClassPlan, pending: map<Int64, Slot>, ds: seq<Delivery>)
    requires |ds| > 0
    ensures var e := Receive(plan, pending, ds[0].msg, ds[0].outcome);
            Run(plan, pending, ds) == if e.fault.Some? then Then(e, RunResult(e.pending, [], [], [], e.fault))
                                      else Then(e, Run(plan, e.pending, ds[1..]))
  {
  }

  lemma AfterThen(sent: seq<Value>, resolved: seq<Resolution>, invoked: seq<Invocation>, e: Effect, r: RunResult)
    ensures After(sent, resolved, invoked, Then(e, r))
         == After(sent + e.sent, resolved + OptionToSeq(e.resolved), invoked + OptionToSeq(e.invoked), r)
  {
  }
  /** One message of a run whose earlier messages are already accounted for. */
  lemma RunStep(plan: ClassPlan, p0: map<Int64, Slot>, ds: seq<Delivery>, i: nat, before: map<Int64, Slot>,
                sent: seq<Value>, resolved: seq<Resolution>, invoked: seq<Invocation>, e: Effect)
    requires i < |ds|
    requires Run(plan, p0, ds) == After(sent, resolved, invoked, Run(plan, before, ds[i..]))
    requires e == Receive(plan, before, ds[i].msg, ds[i].outcome)
    ensures e.fault.None? ==> Run(plan, p0, ds) == After(sent + e.sent, resolved + OptionToSeq(e.resolved),
                                                         invoked + OptionToSeq(e.invoked), Run(plan, e.pending, ds[i + 1..]))
    ensures e.fault.Some? ==> Run(plan, p0, ds) == RunResult(e.pending, sent + e.sent, resolved + OptionToSeq(e.resolved),
                                                             invoked + OptionToSeq(e.invoked), e.fault)
  {
    RunUnfold(plan, before, ds[i..]);
    assert ds[i..][0] == ds[i] && ds[i..][1..] == ds[i + 1..];
    if e.fault.None? {
      AfterThen(sent, resolved, invoked, e, Run(plan, e.pending, ds[i + 1..]));
    } else {
      AfterThen(sent, resolved, invoked, e, RunResult(e.pending, [], [], [], e.fault));
    }
  }


  // ---------------------------------------------------------------- outbound

  /** Interlocked.Increment on a long: the new value, wrapping from the largest to the smallest. */
  function Increment(x: Int64): (r: Int64)
    ensures x < MaxInt64 ==> r == x + 1
    ensures x == MaxInt64 ==> r == MinInt64
  {
    if x == MaxInt64 then MinInt64 else x + 1
  }

  /** The ids that `n` successive stub calls take when the counter starts at `start`. */
  function IdsFrom(start: Int64, n: nat): seq<Int64>
    decreases n
  {
    if n == 0 then [] else [Increment(start)] + IdsFrom(Increment(start), n - 1)
  }

  /** What a stub does with its id: what it writes, what it throws, and whether it goes on to await a Response. */
  datatype Launch = Launch(sent: seq<Value>, fault: Option<Fault>, awaits: bool)

  /**
   * The stub after `Interlocked.Increment`: a void stub starts SendRequestAsync as a notification
   * and discards the task (without a transport that task fails unobserved); Task and Task<T>
   * await SendRequestAsync, which throws without a transport, and then await the Response;
   * any other return type throws.
   */
  function StubLaunch(stub: OutboundStub, attached: bool, id: Int64, args: Value): Launch {
    match stub.action
    case FireNotification =>
      Launch(if attached then [EncodeRequest(stub.iface, stub.methodName, id, Some(args), true)] else [], None, false)
    case ThrowNotSupported => Launch([], Some(NotSupported), false)
    case _ =>
      if attached then Launch([EncodeRequest(stub.iface, stub.methodName, id, Some(args), false)], None, true)
      else Launch([], Some(NoTransport), false)
  }

  /** What an awaiting stub gives its caller once its task completes. */
  datatype CallResult = Completed | CompletedWith(value: Value) | RaisedRemote(message: string) | Raised(fault: Fault)

  /**
   * Task: the payload is discarded. Task<T>: the payload is deserialized into the response DTO
   * and its Result returned (JSON null when the member is absent); an RpcRemoteException carries the error text.
   */
  function CallerResult(action: StubAction, c: Completion): CallResult {
    match c
    case RemoteFailed(m) => RaisedRemote(m)
    case Succeeded(p) =>
      if !action.RequestAndReturnResult? then Completed
      else if p.Null? then Raised(NullResponse)
      else if !p.Object? then Raised(MalformedResponse)
      else match Find(p.members, "result")
        case Some(v) => CompletedWith(v)
        case None => CompletedWith(Null)
  }

  /**
   * Which of two threads gets there first once a Response completes a caller: the loop, which
   * leaves the iteration and so disposes the message's JsonDocument, or the caller's
   * continuation, which the completion source runs on the thread pool.
   */
  datatype Schedule = DisposeFirst | ContinuationFirst

  /**
   * CallerResult for the code as it is written: the Response loop hands the caller the
   * `payload` element itself, which belongs to the message's document, and the `using`
   * declaration disposes that document when the iteration ends. A Task<T> stub then reads it
   * with GetRawText, which throws once the document is gone. Task and void stubs never read
   * the payload, and the error text is read on the loop thread, before the disposal.
   * `CallerResult` above is the caller's view with `payload.Clone()`, which owns its data.
   */
  function CallerResultAsWritten(action: StubAction, c: Completion, schedule: Schedule): CallResult {
    if action.RequestAndReturnResult? && c.Succeeded? && schedule == DisposeFirst then Raised(DocumentDisposed)
    else CallerResult(action, c)
  }

  // ---------------------------------------------------------------- the emitted class

  /** The state the generated partial class adds, and its methods. */
  class RpcEndpoint {
    const plan: ClassPlan
    var attached: bool               // _rpcTransport is not null
    var nextId: Int64                // _rpcNextId
    var pending: map<Int64, Slot>    // _rpcPending
    var tickets: nat                 // task completion sources created so far

    constructor(plan: ClassPlan)
      ensures this.plan == plan && !attached && nextId == InitialNextId && pending == map[] && tickets == 0
    {
      this.plan := plan;
      attached := false;
      nextId := InitialNextId;
      pending := map[];
      tickets := 0;
    }

    /** AttachTransport. */
    method AttachTransport()
      modifies this
      ensures attached && nextId == old(nextId) && pending == old(pending) && tickets == old(tickets)
    {
      attached := true;
    }

    /** The body of RunAsync's loop for one message. */
    method HandleMessage(msg: Value, outcome: HandlerOutcome)
      returns (sent: seq<Value>, resolved: Option<Resolution>, invoked: Option<Invocation>, fault: Option<Fault>)
      modifies this
      ensures var e := Receive(plan, old(pending), msg, outcome);
              pending == e.pending && sent == e.sent && resolved == e.resolved && invoked == e.invoked && fault == e.fault
      ensures attached == old(attached) && nextId == old(nextId) && tickets == old(tickets)
    {
      sent, resolved, invoked, fault := [], None, None, None;
      var decoded := Decode(msg);
      if decoded.Failure? {
        fault := Some(DecodeFault(decoded.error));
        return;
      }
      var env := decoded.value;
      if env.kind == ResponseKind {
        resolved, fault := HandleResponse(env);
        return;
      }
      var k := FindCase(plan.cases, env.methodName);
      if k.None? {
        sent := [EncodeError(plan.inboundIface, env.id, UnknownMethodMessage(env.methodName))];
        return;
      }
      var c := plan.cases[k.value];
      var bad := ArgumentFault(env.payload, c);
      if bad.Some? {
        fault := bad;
        return;
      }
      if c.action == RejectUnsupported {
        sent := [EncodeError(plan.inboundIface, env.id, UnsupportedInbound)];
        return;
      }
      invoked := Some(Invocation(c.methodName, env.payload));
      match outcome {
        case Threw(m) => fault := Some(HandlerFault(m));
        case Returned(v) => sent := Reply(plan.inboundIface, env.id, c.action, v);
      }
    }

    /** The Response branch of RunAsync's loop: TryRemove, then complete the caller. */
    method HandleResponse(env: Envelope) returns (resolved: Option<Resolution>, fault: Option<Fault>)
      modifies this
      ensures var e := ResolveResponse(old(pending), env);
              pending == e.pending && resolved == e.resolved && fault == e.fault
      ensures attached == old(attached) && nextId == old(nextId) && tickets == old(tickets)
    {
      resolved, fault := None, None;
      if env.id in pending {
        var slot := pending[env.id];
        pending := pending - {env.id};
        if HasError(env) {
          match env.err.value {
            case Str(s) => resolved := Some(Resolution(env.id, slot, RemoteFailed(s)));
            case _ => fault := Some(ErrorNotString);
          }
        } else {
          resolved := Some(Resolution(env.id, slot, Succeeded(env.payload)));
        }
      }
    }

    /** RunAsync: refuses to start without a transport, then handles each message until one throws. */
    method RunAsync(ds: seq<Delivery>)
      returns (sent: seq<Value>, resolved: seq<Resolution>, invoked: seq<Invocation>, fault: Option<Fault>)
      modifies this
      ensures !old(attached) ==> fault == Some(NotAttached) && sent == [] && resolved == [] && invoked == [] && pending == old(pending)
      ensures old(attached) ==> var r := Run(plan, old(pending), ds);
              pending == r.pending && sent == r.sent && resolved == r.resolved && invoked == r.invoked && fault == r.fault
      ensures attached == old(attached) && nextId == old(nextId) && tickets == old(tickets)
    {
      sent, resolved, invoked, fault := [], [], [], None;
      if !attached {
        fault := Some(NotAttached);
        return;
      }
      ghost var p0 := pending;
      var i := 0;
      while i < |ds| && fault.None?
        invariant 0 <= i <= |ds|
        invariant attached == old(attached) && nextId == old(nextId) && tickets == old(tickets)
        invariant fault.None? ==> Run(plan, p0, ds) == After(sent, resolved, invoked, Run(plan, pending, ds[i..]))
        invariant fault.Some? ==> Run(plan, p0, ds) == RunResult(pending, sent, resolved, invoked, fault)
        decreases |ds| - i
      {
        ghost var before := pending;
        var s, r, v, f := HandleMessage(ds[i].msg, ds[i].outcome);
        assert Effect(pending, s, r, v, f) == Receive(plan, before, ds[i].msg, ds[i].outcome);
        RunStep(plan, p0, ds, i, before, sent, resolved, invoked, Effect(pending, s, r, v, f));
        sent, resolved, invoked, fault := sent + s, resolved + OptionToSeq(r), invoked + OptionToSeq(v), f;
        i := i + 1;
      }
      if fault.None? {
        assert ds[i..] == [];
      }
    }

    /**
     * An outbound stub up to its send: `Interlocked.Increment` takes the id, then the stub
     * writes its request (or notification) or throws, as StubLaunch says.
     */
    method BeginCall(index: nat, args: Value) returns (id: Int64, sent: seq<Value>, fault: Option<Fault>, awaits: bool)
      requires index < |plan.stubs|
      modifies this
      ensures nextId == Increment(old(nextId)) && id == nextId
      ensures var l := StubLaunch(plan.stubs[index], attached, id, args); sent == l.sent && fault == l.fault && awaits == l.awaits
      ensures attached == old(attached) && pending == old(pending) && tickets == old(tickets)
    {
      nextId := Increment(nextId);
      id := nextId;
      var l := StubLaunch(plan.stubs[index], attached, id, args);
      sent, fault, awaits := l.sent, l.fault, l.awaits;
    }

    /** AwaitResponseAsync: a new completion source registered under the id, replacing any earlier one. */
    method AwaitResponse(id: Int64) returns (slot: Slot)
      modifies this
      ensures tickets == old(tickets) + 1 && slot == Slot(tickets) && pending == old(pending)[id := slot]
      ensures attached == old(attached) && nextId == old(nextId)
    {
      tickets := tickets + 1;
      slot := Slot(tickets);
      pending := pending[id := slot];
    }
  }
}
