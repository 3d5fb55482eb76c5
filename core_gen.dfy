/**
 * The decisions of GenerateForClass in RpcGenerator.cs, the generator that leaves the wire
 * protocol to a library class RpcCore and emits only the dispatch and the stubs around it:
 * the `OnRequestAsync` switch that RpcCore calls for each inbound request, the outbound stubs
 * that call RpcCore, the attach guard, and the handler signatures and DTOs. RpcCore itself is
 * not part of this model: its calls are recorded, not executed.
 */
module CoreGen {
  import opened Wrappers
  import opened Json
  import opened Symbols

  // ---------------------------------------------------------------- the plan

  /** The body of `case "<m>":` in OnRequestAsync, after deserializing the request DTO; every case returns true. */
  datatype CaseAction =
    | InvokeAndReturnTrue                        // void
    | AcknowledgeAndReturnTrue                   // Task: SendResponseAsync(transport, id, null, iface)
    | ReplyResultAndReturnTrue(responseDto: string) // Task<T>: SendResponseAsync(transport, id, new <dto> { Result = result }, iface)
    | RejectAndReturnTrue                        // other: SendErrorAsync(transport, id, "Unsupported inbound return type", iface)

  datatype CoreCase = CoreCase(methodName: string, requestDto: string, arguments: seq<string>, action: CaseAction)

  /** The RpcCore call an outbound stub makes after the attach check. */
  datatype CoreStubAction =
    | Notify                                           // `_ = _rpc.NotifyAsync(...)`, not awaited
    | Request                                          // `await _rpc.RequestAsync(...)`
    | RequestTyped(requestDto: string, responseDto: string) // `await _rpc.RequestAsync<Req, Resp>(...)`, then `.Result`
    | NotSupported                                     // throw NotSupportedException

  datatype CoreStub = CoreStub(
    signature: string,
    iface: string,
    methodName: string,
    requestDto: string,
    payloadInits: seq<string>,
    action: CoreStubAction)

  /** Everything GenerateForClass emits for one class, in the order it emits it. */
  datatype CorePlan = CorePlan(
    hintName: string,
    namespaceLine: Option<string>,
    className: string,
    outboundIface: string,
    inboundIface: string,
    cases: seq<CoreCase>,
    stubs: seq<CoreStub>,
    handlers: seq<string>,
    dtos: seq<Dto>)

  const UnsupportedInbound: string := "Unsupported inbound return type"

  /** The OnRequestAsync case emitted for inbound method `m`. */
  function CaseFor(className: string, iface: string, m: MethodSymbol): (c: CoreCase)
    ensures c.methodName == m.name && c.requestDto == RequestDtoName(className, iface, m.name)
    ensures c.arguments == ArgumentList(m.parameters)
    ensures c.action == InvokeAndReturnTrue <==> GetReturnKind(m.returnType) == Void
    ensures c.action == AcknowledgeAndReturnTrue <==> GetReturnKind(m.returnType) == Task
    ensures c.action.ReplyResultAndReturnTrue? <==> GetReturnKind(m.returnType) == TaskOfT
    ensures c.action == RejectAndReturnTrue <==> GetReturnKind(m.returnType) == Other
    ensures c.action.ReplyResultAndReturnTrue? ==>
              ResponseDto(className, iface, m) == Some(Dto(c.action.responseDto, [DtoProperty(m.returnType.typeArgs[0], "Result")]))
  {
    var action := match GetReturnKind(m.returnType)
      case Void => InvokeAndReturnTrue
      case Task => AcknowledgeAndReturnTrue
      case TaskOfT => ReplyResultAndReturnTrue(ResponseDtoName(className, iface, m.name))
      case Other => RejectAndReturnTrue;
    CoreCase(m.name, RequestDtoName(className, iface, m.name), ArgumentList(m.parameters), action)
  }

  /** The outbound stub emitted for method `m`. */
  function StubFor(className: string, iface: string, m: MethodSymbol): (s: CoreStub)
    ensures s.signature == StubSignature(m)
    ensures s.iface == iface && s.methodName == m.name && s.requestDto == RequestDtoName(className, iface, m.name)
    ensures s.payloadInits == PayloadInits(m.parameters)
    ensures s.action == Notify <==> GetReturnKind(m.returnType) == Void
    ensures s.action == Request <==> GetReturnKind(m.returnType) == Task
    ensures s.action.RequestTyped? <==> GetReturnKind(m.returnType) == TaskOfT
    ensures s.action == NotSupported <==> GetReturnKind(m.returnType) == Other
    ensures s.action.RequestTyped? ==>
              s.action.requestDto == s.requestDto
              && ResponseDto(className, iface, m) == Some(Dto(s.action.responseDto, [DtoProperty(m.returnType.typeArgs[0], "Result")]))
  {
    var req := RequestDtoName(className, iface, m.name);
    var action := match GetReturnKind(m.returnType)
      case Void => Notify
      case Task => Request
      case TaskOfT => RequestTyped(req, ResponseDtoName(className, iface, m.name))
      case Other => NotSupported;
    CoreStub(StubSignature(m), iface, m.name, req, PayloadInits(m.parameters), action)
  }

  function CasesFor(className: string, iface: string, ms: seq<MethodSymbol>): seq<CoreCase> {
    seq(|ms|, k requires 0 <= k < |ms| => CaseFor(className, iface, ms[k]))
  }

  function StubsFor(className: string, iface: string, ms: seq<MethodSymbol>): (r: seq<CoreStub>)
    ensures |r| == |ms| && forall k :: 0 <= k < |ms| ==> r[k] == StubFor(className, iface, ms[k])
    decreases |ms|
  {
    if |ms| == 0 then [] else StubsFor(className, iface, ms[..|ms| - 1]) + [StubFor(className, iface, ms[|ms| - 1])]
  }

  function HandlersFor(ms: seq<MethodSymbol>): seq<string>
    decreases |ms|
  {
    if |ms| == 0 then [] else HandlersFor(ms[..|ms| - 1]) + [HandlerSignature(ms[|ms| - 1])]
  }

  /** The plan for a candidate, or None when the attribute is not `(typeof(A), typeof(B))`. */
  function PlanFor(cand: Candidate): (r: Option<CorePlan>)
    ensures r.Some? <==> InterfacePair(cand.attribute).Some?
  {
    match InterfacePair(cand.attribute)
    case None => None
    case Some((outIface, inIface)) =>
      var cn := cand.classSymbol.name;
      var outMs := MethodsOf(outIface.members);
      var inMs := MethodsOf(inIface.members);
      Some(CorePlan(
        cn + ".Rpc.g.cs",
        NamespaceLine(cand.classSymbol.namespace),
        cn,
        outIface.name,
        inIface.name,
        CasesFor(cn, inIface.name, inMs),
        StubsFor(cn, outIface.name, outMs),
        HandlersFor(inMs),
        AllDtos(cn, outIface.name, outMs) + AllDtos(cn, inIface.name, inMs)))
  }

  /** GenerateForClass: the guard, then the inbound cases, the stubs with their DTOs, and the handlers with theirs. */
  method GenerateForClass(cand: Candidate) returns (plan: Option<CorePlan>)
    ensures plan == PlanFor(cand)
  {
    var pair := InterfacePair(cand.attribute);
    if pair.None? {
      return None;
    }
    var (outIface, inIface) := pair.value;
    var cn := cand.classSymbol.name;
    var outMs := MethodsOf(outIface.members);
    var inMs := MethodsOf(inIface.members);
    var cases := EmitCases(cn, inIface.name, inMs);
    var stubs, outDtos := EmitStubs(cn, outIface.name, outMs);
    var handlers, inDtos := EmitHandlers(cn, inIface.name, inMs);
    plan := Some(CorePlan(cn + ".Rpc.g.cs", NamespaceLine(cand.classSymbol.namespace), cn,
                          outIface.name, inIface.name, cases, stubs, handlers, outDtos + inDtos));
  }

  method EmitCases(className: string, iface: string, ms: seq<MethodSymbol>) returns (cases: seq<CoreCase>)
    ensures cases == CasesFor(className, iface, ms)
  {
    cases := [];
    var i := 0;
    while i < |ms|
      invariant 0 <= i <= |ms|
      invariant |cases| == i && forall k :: 0 <= k < i ==> cases[k] == CaseFor(className, iface, ms[k])
    {
      cases := cases + [CaseFor(className, iface, ms[i])];
      i := i + 1;
    }
  }

  method EmitStubs(className: string, iface: string, ms: seq<MethodSymbol>) returns (stubs: seq<CoreStub>, dtos: seq<Dto>)
    ensures stubs == StubsFor(className, iface, ms)
    ensures dtos == AllDtos(className, iface, ms)
  {
    stubs := [];
    dtos := [];
    var i := 0;
    while i < |ms|
      invariant 0 <= i <= |ms|
      invariant stubs == StubsFor(className, iface, ms[..i])
      invariant dtos == AllDtos(className, iface, ms[..i])
    {
      assert ms[..i + 1][..i] == ms[..i];
      stubs := stubs + [StubFor(className, iface, ms[i])];
      dtos := dtos + DtosFor(className, iface, ms[i]);
      i := i + 1;
    }
    assert ms[..|ms|] == ms;
  }

  method EmitHandlers(className: string, iface: string, ms: seq<MethodSymbol>) returns (handlers: seq<string>, dtos: seq<Dto>)
    ensures handlers == HandlersFor(ms)
    ensures dtos == AllDtos(className, iface, ms)
  {
    handlers := [];
    dtos := [];
    var i := 0;
    while i < |ms|
      invariant 0 <= i <= |ms|
      invariant handlers == HandlersFor(ms[..i])
      invariant dtos == AllDtos(className, iface, ms[..i])
    {
      handlers := handlers + [HandlerSignature(ms[i])];
      assert ms[..i + 1][..i] == ms[..i];
      dtos := dtos + DtosFor(className, iface, ms[i]);
      i := i + 1;
    }
    assert ms[..|ms|] == ms;
  }

  // ---------------------------------------------------------------- the emitted code

  /** A call the emitted code makes into RpcCore. */
  datatype CoreCall =
    | SendResponse(id: Int64, result: Option<Value>, iface: string)  // Some(v): the DTO `{ Result = v }`
    | SendError(id: Int64, message: string, iface: string)
    | NotifyCall(iface: string, methodName: string, payload: Value)
    | RequestCall(iface: string, methodName: string, payload: Value)
    | RequestTypedCall(requestDto: string, responseDto: string, iface: string, methodName: string, payload: Value)

  /** An exception the emitted code throws. */
  datatype CoreFault =
    | NotAttached                    // "Transport not attached. Call AttachTransport first."
    | Unsupported                    // NotSupportedException from a stub
    | MalformedRequest               // the payload does not deserialize into the request DTO
    | NullRequest                    // a null request DTO dereferenced by the handler arguments
    | HandlerFault(message: string)  // the handler threw

  /** What the user's handler does when a case calls it. */
  datatype HandlerOutcome = Returned(result: Value) | Threw(message: string)

  /** The result of one OnRequestAsync: the returned flag, the RpcCore calls, the handler called, and what is thrown. */
  datatype Handling = Handling(handled: bool, calls: seq<CoreCall>, invoked: Option<string>, fault: Option<CoreFault>)

  /** The first case whose label is the method name. */
  function FindCase(cases: seq<CoreCase>, name: string): (r: Option<nat>)
    ensures r.None? <==> forall k :: 0 <= k < |cases| ==> cases[k].methodName != name
    ensures r.Some? ==> r.value < |cases| && cases[r.value].methodName == name
                        && forall k :: 0 <= k < r.value ==> cases[k].methodName != name
    decreases |cases|
  {
    if |cases| == 0 then None
    else if cases[0].methodName == name then Some(0)
    else match FindCase(cases[1..], name)
      case None => None
      case Some(k) => Some(k + 1)
  }

  /** One case of OnRequestAsync. */
  function RunCase(plan: CorePlan, c: CoreCase, id: Int64, payload: Value, outcome: HandlerOutcome): Handling {
    match BindRequest(payload, |c.arguments| > 0 && c.action != RejectAndReturnTrue)
    case Some(NotDeserializable) => Handling(false, [], None, Some(MalformedRequest))
    case Some(NullDereference) => Handling(false, [], None, Some(NullRequest))
    case None =>
      if c.action == RejectAndReturnTrue then Handling(true, [SendError(id, UnsupportedInbound, plan.inboundIface)], None, None)
      else match outcome
        case Threw(msg) => Handling(false, [], Some(c.methodName), Some(HandlerFault(msg)))
        case Returned(v) =>
          var calls := match c.action
            case InvokeAndReturnTrue => []
            case AcknowledgeAndReturnTrue => [SendResponse(id, None, plan.inboundIface)]
            case ReplyResultAndReturnTrue(_) => [SendResponse(id, Some(v), plan.inboundIface)]
            case RejectAndReturnTrue => [];
          Handling(true, calls, Some(c.methodName), None)
  }

  /** OnRequestAsync(id, iface, method, payload): the generated switch; the `iface` argument is not consulted. */
  function OnRequest(plan: CorePlan, id: Int64, iface: string, methodName: string, payload: Value, outcome: HandlerOutcome): Handling {
    match FindCase(plan.cases, methodName)
    case None => Handling(false, [], None, None)
    case Some(k) => RunCase(plan, plan.cases[k], id, payload, outcome)
  }

  /** What an outbound stub does: the attach check comes first, before even the unsupported return type. */
  function StubCall(stub: CoreStub, attached: bool, payload: Value): (r: Result<(CoreCall, bool), CoreFault>)
  {
    if !attached then Failure(NotAttached)
    else match stub.action
      case Notify => Success((NotifyCall(stub.iface, stub.methodName, payload), false))
      case Request => Success((RequestCall(stub.iface, stub.methodName, payload), true))
      case RequestTyped(req, resp) => Success((RequestTypedCall(req, resp, stub.iface, stub.methodName, payload), true))
      case NotSupported => Failure(Unsupported)
  }

  /** The state the generated class adds: whether AttachTransport has set `_rpcTransport` and `_rpc`. */
  class CoreEndpoint {
    const plan: CorePlan
    var attached: bool

    constructor(plan: CorePlan)
      ensures this.plan == plan && !attached
    {
      this.plan := plan;
      attached := false;
    }

    /** AttachTransport: sets the transport and creates the RpcCore. */
    method AttachTransport()
      modifies this
      ensures attached
    {
      attached := true;
    }

    /** RunAsync: throws unless attached, otherwise returns RpcCore.RunAsync's task, which is not modelled. */
    method RunAsync() returns (r: Result<(), CoreFault>)
      ensures r.Failure? <==> !attached
      ensures r.Failure? ==> r.error == NotAttached
    {
      if !attached {
        return Failure(NotAttached);
      }
      return Success(());
    }

    /** Calls the outbound stub `index` with its serialized request DTO. */
    method CallStub(index: nat, payload: Value) returns (r: Result<(CoreCall, bool), CoreFault>)
      requires index < |plan.stubs|
      ensures r == StubCall(plan.stubs[index], attached, payload)
    {
      r := StubCall(plan.stubs[index], attached, payload);
    }
  }

  // ---------------------------------------------------------------- properties

  /** The switch has a case for a name exactly when the interface has an ordinary method of that name. */
  lemma {:induction false} CasesMatchMethods(className: string, iface: string, ms: seq<MethodSymbol>, name: string)
    ensures FindCase(CasesFor(className, iface, ms), name).Some? <==> (exists k :: 0 <= k < |ms| && ms[k].name == name)
  {
    var cases := CasesFor(className, iface, ms);
    if exists k :: 0 <= k < |ms| && ms[k].name == name {
      var k :| 0 <= k < |ms| && ms[k].name == name;
      assert cases[k].methodName == name;
    }
    if FindCase(cases, name).Some? {
      var k := FindCase(cases, name).value;
      assert ms[k].name == name;
    }
  }

  /**
   * OnRequestAsync returns false, doing nothing, exactly for names that are not methods of the
   * inbound interface; for the others it returns true unless the request or the handler throws.
   */
  lemma {:induction false} HandledExactlyForInboundMethods(plan: CorePlan, ms: seq<MethodSymbol>, id: Int64, iface: string,
                                                           name: string, payload: Value, outcome: HandlerOutcome)
    requires plan.cases == CasesFor(plan.className, plan.inboundIface, ms)
    ensures var h := OnRequest(plan, id, iface, name, payload, outcome);
            (h.fault.None? ==> (h.handled <==> exists k :: 0 <= k < |ms| && ms[k].name == name))
            && (!(exists k :: 0 <= k < |ms| && ms[k].name == name) ==> h == Handling(false, [], None, None))
  {
    CasesMatchMethods(plan.className, plan.inboundIface, ms, name);
    var f := FindCase(plan.cases, name);
    if f.Some? {
      var c := plan.cases[f.value];
      var h := RunCase(plan, c, id, payload, outcome);
      assert h.fault.None? ==> h.handled;
    }
  }

  /** For a generated class: OnRequestAsync handles exactly the methods of the attribute's second interface. */
  lemma {:induction false} GeneratedSwitchHandlesInbound(cand: Candidate, id: Int64, iface: string, name: string,
                                                         payload: Value, outcome: HandlerOutcome)
    requires PlanFor(cand).Some?
    ensures var inMs := MethodsOf(InterfacePair(cand.attribute).value.1.members);
            var h := OnRequest(PlanFor(cand).value, id, iface, name, payload, outcome);
            (h.fault.None? ==> (h.handled <==> exists k :: 0 <= k < |inMs| && inMs[k].name == name))
            && (!(exists k :: 0 <= k < |inMs| && inMs[k].name == name) ==> h == Handling(false, [], None, None))
  {
    var plan := PlanFor(cand).value;
    var inMs := MethodsOf(InterfacePair(cand.attribute).value.1.members);
    assert plan.cases == CasesFor(plan.className, plan.inboundIface, inMs);
    HandledExactlyForInboundMethods(plan, inMs, id, iface, name, payload, outcome);
  }

  /**
   * For a known method whose request binds and whose handler returns, the RpcCore calls follow
   * the return kind: void makes none; Task sends a Response with no payload; Task<T> sends the
   * handler's value; any other return type sends "Unsupported inbound return type"; each names
   * the inbound interface and the request's id.
   */
  lemma {:induction false} CaseCallsFollowReturnKind(plan: CorePlan, id: Int64, iface: string, payload: Value, v: Value,
                                                     k: nat, m: MethodSymbol)
    requires FindCase(plan.cases, m.name) == Some(k)
    requires plan.cases[k] == CaseFor(plan.className, plan.inboundIface, m)
    requires payload.Object?
    ensures var h := OnRequest(plan, id, iface, m.name, payload, Returned(v));
            h.handled && h.fault.None?
            && (GetReturnKind(m.returnType) == Void ==> h.calls == [] && h.invoked == Some(m.name))
            && (GetReturnKind(m.returnType) == Task ==> h.calls == [SendResponse(id, None, plan.inboundIface)] && h.invoked == Some(m.name))
            && (GetReturnKind(m.returnType) == TaskOfT ==> h.calls == [SendResponse(id, Some(v), plan.inboundIface)] && h.invoked == Some(m.name))
            && (GetReturnKind(m.returnType) == Other ==> h.calls == [SendError(id, UnsupportedInbound, plan.inboundIface)] && h.invoked.None?)
  {
    assert BindRequest(payload, |plan.cases[k].arguments| > 0 && plan.cases[k].action != RejectAndReturnTrue).None?;
  }

  /**
   * A stub checks the attachment first; once attached it notifies without awaiting (void),
   * requests and awaits (Task), requests with its DTO types and awaits (Task<T>), or throws
   * NotSupportedException.
   */
  lemma {:induction false} StubCallFollowsReturnKind(className: string, iface: string, m: MethodSymbol, attached: bool, payload: Value)
    ensures var r := StubCall(StubFor(className, iface, m), attached, payload);
            (!attached ==> r == Failure(NotAttached))
            && (attached && GetReturnKind(m.returnType) == Void ==> r == Success((NotifyCall(iface, m.name, payload), false)))
            && (attached && GetReturnKind(m.returnType) == Task ==> r == Success((RequestCall(iface, m.name, payload), true)))
            && (attached && GetReturnKind(m.returnType) == TaskOfT ==>
                  r == Success((RequestTypedCall(RequestDtoName(className, iface, m.name), ResponseDtoName(className, iface, m.name),
                                                 iface, m.name, payload), true)))
            && (attached && GetReturnKind(m.returnType) == Other ==> r == Failure(Unsupported))
  {
  }

  /** The DTO types a Task<T> stub passes to RequestAsync are declared by the plan, the response one with `Result`. */
  lemma {:induction false} TypedRequestDtosDeclared(cand: Candidate, k: int)
    requires PlanFor(cand).Some? && 0 <= k < |PlanFor(cand).value.stubs|
    requires PlanFor(cand).value.stubs[k].action.RequestTyped?
    ensures var plan := PlanFor(cand).value;
            var a := plan.stubs[k].action;
            (exists d :: d in plan.dtos && d.name == a.requestDto)
            && (exists d :: d in plan.dtos && d.name == a.responseDto && |d.properties| == 1 && d.properties[0].name == "Result")
  {
    var plan := PlanFor(cand).value;
    var (outIface, inIface) := InterfacePair(cand.attribute).value;
    var outMs := MethodsOf(outIface.members);
    assert plan.stubs == StubsFor(plan.className, outIface.name, outMs);
    assert plan.dtos == AllDtos(plan.className, outIface.name, outMs) + AllDtos(plan.className, inIface.name, MethodsOf(inIface.members));
    AllDtosContains(plan.className, outIface.name, outMs, k);
    var m := outMs[k];
    assert RequestDto(plan.className, outIface.name, m) in plan.dtos;
    assert ResponseDto(plan.className, outIface.name, m).value in plan.dtos;
  }
}
