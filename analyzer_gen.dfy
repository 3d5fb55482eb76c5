/**
 * The decisions of GenerateForClass in RpcGenSourceGeneratorAnalyzer.cs, the generator that
 * emits the whole runtime into each class: what each inbound switch case does, which call each
 * outbound stub makes, the abstract handler signatures and the DTO classes, for one candidate.
 * The emitted text is summarised as a plan; the runtime the plan describes is in module Engine.
 */
module AnalyzerGen {
  import opened Wrappers
  import opened Symbols

  /** The body of `case "<m>":` in RunAsync, after the request DTO has been deserialized. */
  datatype InboundAction =
    | InvokeOnly                                  // void: call the handler, no reply
    | InvokeThenAcknowledge                       // Task: await the handler, then SendResponseAsync(id, null)
    | InvokeThenReturnResult(responseDto: string) // Task<T>: SendResponseAsync(id, new <responseDto> { Result = result })
    | RejectUnsupported                           // other: SendErrorAsync(id, "Unsupported inbound return type")

  /** One inbound switch case: the method name it matches, the request DTO, the handler arguments and the action. */
  datatype InboundCase = InboundCase(methodName: string, requestDto: string, arguments: seq<string>, action: InboundAction)

  /** What an outbound stub does once it has its id and its payload. */
  datatype StubAction =
    | FireNotification                            // void: `_ = SendRequestAsync(..., notification: true)`
    | RequestAndAwait                             // Task: await SendRequestAsync, then await AwaitResponseAsync
    | RequestAndReturnResult(responseDto: string) // Task<T>: the same, then return the response DTO's Result
    | ThrowNotSupported                           // other: throw NotSupportedException

  /** One outbound stub: its signature, the interface and method names it sends, its request DTO and initialisers. */
  datatype OutboundStub = OutboundStub(
    signature: string,
    iface: string,
    methodName: string,
    requestDto: string,
    payloadInits: seq<string>,
    action: StubAction)

  /** Everything GenerateForClass emits for one class, in the order it emits it. */
  datatype ClassPlan = ClassPlan(
    hintName: string,                 // "<class>.Rpc.g.cs"
    namespaceLine: Option<string>,    // "namespace <ns>;" when the class is not in the global namespace
    className: string,
    outboundIface: string,
    inboundIface: string,
    cases: seq<InboundCase>,          // RunAsync's switch, one case per inbound method
    stubs: seq<OutboundStub>,         // one per outbound method
    handlers: seq<string>,            // the abstract handler signatures, one per inbound method
    dtos: seq<Dto>)                   // outbound DTOs, then inbound DTOs

  const UnsupportedInbound: string := "Unsupported inbound return type"
  const UnsupportedOutbound: string := "Unsupported outbound return type"

  /** The inbound case emitted for method `m` of interface `iface`. */
  function CaseFor(className: string, iface: string, m: MethodSymbol): (c: InboundCase)
    ensures c.methodName == m.name && c.requestDto == RequestDtoName(className, iface, m.name)
    ensures c.arguments == ArgumentList(m.parameters)
    ensures c.action == InvokeOnly <==> GetReturnKind(m.returnType) == Void
    ensures c.action == InvokeThenAcknowledge <==> GetReturnKind(m.returnType) == Task
    ensures c.action.InvokeThenReturnResult? <==> GetReturnKind(m.returnType) == TaskOfT
    ensures c.action == RejectUnsupported <==> GetReturnKind(m.returnType) == Other
    ensures c.action.InvokeThenReturnResult? ==>
              ResponseDto(className, iface, m) == Some(Dto(c.action.responseDto, [DtoProperty(m.returnType.typeArgs[0], "Result")]))
  {
    var action := match GetReturnKind(m.returnType)
      case Void => InvokeOnly
      case Task => InvokeThenAcknowledge
      case TaskOfT => InvokeThenReturnResult(ResponseDtoName(className, iface, m.name))
      case Other => RejectUnsupported;
    InboundCase(m.name, RequestDtoName(className, iface, m.name), ArgumentList(m.parameters), action)
  }

  /** The outbound stub emitted for method `m` of interface `iface`. */
  function StubFor(className: string, iface: string, m: MethodSymbol): (s: OutboundStub)
    ensures s.signature == StubSignature(m)
    ensures s.iface == iface && s.methodName == m.name && s.requestDto == RequestDtoName(className, iface, m.name)
    ensures s.payloadInits == PayloadInits(m.parameters)
    ensures s.action == FireNotification <==> GetReturnKind(m.returnType) == Void
    ensures s.action == RequestAndAwait <==> GetReturnKind(m.returnType) == Task
    ensures s.action.RequestAndReturnResult? <==> GetReturnKind(m.returnType) == TaskOfT
    ensures s.action == ThrowNotSupported <==> GetReturnKind(m.returnType) == Other
    ensures s.action.RequestAndReturnResult? ==>
              ResponseDto(className, iface, m) == Some(Dto(s.action.responseDto, [DtoProperty(m.returnType.typeArgs[0], "Result")]))
  {
    var action := match GetReturnKind(m.returnType)
      case Void => FireNotification
      case Task => RequestAndAwait
      case TaskOfT => RequestAndReturnResult(ResponseDtoName(className, iface, m.name))
      case Other => ThrowNotSupported;
    OutboundStub(StubSignature(m), iface, m.name, RequestDtoName(className, iface, m.name), PayloadInits(m.parameters), action)
  }

  /** RunAsync's switch cases, one per inbound method in order. */
  function CasesFor(className: string, iface: string, ms: seq<MethodSymbol>): seq<InboundCase> {
    seq(|ms|, k requires 0 <= k < |ms| => CaseFor(className, iface, ms[k]))
  }

  /** The outbound stubs, one per outbound method in order. */
  function StubsFor(className: string, iface: string, ms: seq<MethodSymbol>): (r: seq<OutboundStub>)
    ensures |r| == |ms| && forall k :: 0 <= k < |ms| ==> r[k] == StubFor(className, iface, ms[k])
    decreases |ms|
  {
    if |ms| == 0 then [] else StubsFor(className, iface, ms[..|ms| - 1]) + [StubFor(className, iface, ms[|ms| - 1])]
  }

  /** The abstract inbound handlers, one per inbound method in order. */
  function HandlersFor(ms: seq<MethodSymbol>): seq<string>
    decreases |ms|
  {
    if |ms| == 0 then [] else HandlersFor(ms[..|ms| - 1]) + [HandlerSignature(ms[|ms| - 1])]
  }

  /** The plan GenerateForClass emits for a candidate, or None when the attribute is not `(typeof(A), typeof(B))`. */
  function PlanFor(cand: Candidate): (r: Option<ClassPlan>)
    ensures r.Some? <==> InterfacePair(cand.attribute).Some?
  {
    match InterfacePair(cand.attribute)
    case None => None
    case Some((outIface, inIface)) =>
      var cn := cand.classSymbol.name;
      var outMs := MethodsOf(outIface.members);
      var inMs := MethodsOf(inIface.members);
      Some(ClassPlan(
        cn + ".Rpc.g.cs",
        NamespaceLine(cand.classSymbol.namespace),
        cn,
        outIface.name,
        inIface.name,
        CasesFor(cn, inIface.name, inMs),
        StubsFor(cn, outIface.name, outMs),
        HandlersFor(inMs),
        AllDtos(cn, outIface.name, outMs) + AllDtos(cn, inIface.name, inMs)))
  }

  /**
   * GenerateForClass: checks the attribute, then walks the inbound methods (switch cases),
   * the outbound methods (stubs and their DTOs) and the inbound methods again (handlers and
   * their DTOs), appending as it goes.
   */
  method GenerateForClass(cand: Candidate) returns (plan: Option<ClassPlan>)
    ensures plan == PlanFor(cand)
  {
    var pair := InterfacePair(cand.attribute);
    if pair.None? {
      return None;
    }
    var (outIface, inIface) := pair.value;
    var cn := cand.classSymbol.name;
    var outMs := MethodsOf(outIface.members);
    var inMs := MethodsOf(inIface.members);
    var cases := EmitCases(cn, inIface.name, inMs);
    var stubs, outDtos := EmitStubs(cn, outIface.name, outMs);
    var handlers, inDtos := EmitHandlers(cn, inIface.name, inMs);
    plan := Some(ClassPlan(cn + ".Rpc.g.cs", NamespaceLine(cand.classSymbol.namespace), cn,
                           outIface.name, inIface.name, cases, stubs, handlers, outDtos + inDtos));
  }

  /** The loop over the inbound methods that writes RunAsync's switch cases. */
  method EmitCases(className: string, iface: string, ms: seq<MethodSymbol>) returns (cases: seq<InboundCase>)
    ensures cases == CasesFor(className, iface, ms)
  {
    cases := [];
    var i := 0;
    while i < |ms|
      invariant 0 <= i <= |ms|
      invariant |cases| == i && forall k :: 0 <= k < i ==> cases[k] == CaseFor(className, iface, ms[k])
    {
      cases := cases + [CaseFor(className, iface, ms[i])];
      i := i + 1;
    }
  }

  /** The loop over the outbound methods that writes each stub and then its DTOs. */
  method EmitStubs(className: string, iface: string, ms: seq<MethodSymbol>) returns (stubs: seq<OutboundStub>, dtos: seq<Dto>)
    ensures stubs == StubsFor(className, iface, ms)
    ensures dtos == AllDtos(className, iface, ms)
  {
    stubs := [];
    dtos := [];
    var i := 0;
    while i < |ms|
      invariant 0 <= i <= |ms|
      invariant stubs == StubsFor(className, iface, ms[..i])
      invariant dtos == AllDtos(className, iface, ms[..i])
    {
      assert ms[..i + 1][..i] == ms[..i];
      stubs := stubs + [StubFor(className, iface, ms[i])];
      dtos := dtos + DtosFor(className, iface, ms[i]);
      i := i + 1;
    }
    assert ms[..|ms|] == ms;
  }

  /** The second loop over the inbound methods, which writes each abstract handler and then its DTOs. */
  method EmitHandlers(className: string, iface: string, ms: seq<MethodSymbol>) returns (handlers: seq<string>, dtos: seq<Dto>)
    ensures handlers == HandlersFor(ms)
    ensures dtos == AllDtos(className, iface, ms)
  {
    handlers := [];
    dtos := [];
    var i := 0;
    while i < |ms|
      invariant 0 <= i <= |ms|
      invariant handlers == HandlersFor(ms[..i])
      invariant dtos == AllDtos(className, iface, ms[..i])
    {
      handlers := handlers + [HandlerSignature(ms[i])];
      assert ms[..i + 1][..i] == ms[..i];
      dtos := dtos + DtosFor(className, iface, ms[i]);
      i := i + 1;
    }
    assert ms[..|ms|] == ms;
  }

  /** The switch has a case for a name exactly when the interface has an ordinary method of that name. */
  lemma {:induction false} CasesMatchMethods(className: string, iface: string, ms: seq<MethodSymbol>, name: string)
    ensures (exists k :: 0 <= k < |CasesFor(className, iface, ms)| && CasesFor(className, iface, ms)[k].methodName == name)
        <==> (exists k :: 0 <= k < |ms| && ms[k].name == name)
  {
    var cases := CasesFor(className, iface, ms);
    if exists k :: 0 <= k < |ms| && ms[k].name == name {
      var k :| 0 <= k < |ms| && ms[k].name == name;
      assert cases[k].methodName == name;
    }
    if exists k :: 0 <= k < |cases| && cases[k].methodName == name {
      var k :| 0 <= k < |cases| && cases[k].methodName == name;
      assert ms[k].name == name;
    }
  }

  /** The generated switch has a case for a name exactly when the inbound interface has an ordinary method of that name. */
  lemma {:induction false} CasesMatchInboundMethods(cand: Candidate, name: string)
    requires PlanFor(cand).Some?
    ensures var inMs := MethodsOf(InterfacePair(cand.attribute).value.1.members);
            (exists k :: 0 <= k < |PlanFor(cand).value.cases| && PlanFor(cand).value.cases[k].methodName == name)
            <==> (exists k :: 0 <= k < |inMs| && inMs[k].name == name)
  {
    var inIface := InterfacePair(cand.attribute).value.1;
    assert PlanFor(cand).value.cases == CasesFor(cand.classSymbol.name, inIface.name, MethodsOf(inIface.members));
    CasesMatchMethods(cand.classSymbol.name, inIface.name, MethodsOf(inIface.members), name);
  }

  /**
   * Every inbound case refers to DTOs the plan declares: the request DTO has one property
   * per handler argument, which reads that property, and a Task<T> case's response DTO has
   * the single property `Result`.
   */
  lemma {:induction false} CaseDtosDeclared(cand: Candidate, k: int)
    requires PlanFor(cand).Some? && 0 <= k < |PlanFor(cand).value.cases|
    ensures var plan := PlanFor(cand).value;
            var c := plan.cases[k];
            exists d :: d in plan.dtos && d.name == c.requestDto && |d.properties| == |c.arguments|
                        && forall j :: 0 <= j < |c.arguments| ==> c.arguments[j] == "req!." + d.properties[j].name
    ensures var plan := PlanFor(cand).value;
            var c := plan.cases[k];
            c.action.InvokeThenReturnResult? ==>
              exists d :: d in plan.dtos && d.name == c.action.responseDto && |d.properties| == 1 && d.properties[0].name == "Result"
  {
    var plan := PlanFor(cand).value;
    var (outIface, inIface) := InterfacePair(cand.attribute).value;
    var inMs := MethodsOf(inIface.members);
    var outDtos := AllDtos(plan.className, outIface.name, MethodsOf(outIface.members));
    var inDtos := AllDtos(plan.className, inIface.name, inMs);
    assert plan.dtos == outDtos + inDtos;
    var m := inMs[k];
    var c := plan.cases[k];
    assert c == CaseFor(plan.className, inIface.name, m);
    AllDtosContains(plan.className, inIface.name, inMs, k);
    var req := RequestDto(plan.className, inIface.name, m);
    assert req in plan.dtos;
    assert forall j :: 0 <= j < |c.arguments| ==> c.arguments[j] == "req!." + req.properties[j].name;
    if c.action.InvokeThenReturnResult? {
      var resp := ResponseDto(plan.className, inIface.name, m).value;
      assert resp in plan.dtos;
    }
  }

  /**
   * Every outbound stub refers to DTOs the plan declares: one request DTO property per
   * parameter, initialised from it, and for Task<T> a response DTO with the property `Result`.
   */
  lemma {:induction false} StubDtosDeclared(cand: Candidate, k: int)
    requires PlanFor(cand).Some? && 0 <= k < |PlanFor(cand).value.stubs|
    ensures var plan := PlanFor(cand).value;
            var s := plan.stubs[k];
            exists d :: d in plan.dtos && d.name == s.requestDto && |d.properties| == |s.payloadInits|
                        && forall j :: 0 <= j < |s.payloadInits| ==> StartsWith(s.payloadInits[j], d.properties[j].name + " = ")
    ensures var plan := PlanFor(cand).value;
            var s := plan.stubs[k];
            s.action.RequestAndReturnResult? ==>
              exists d :: d in plan.dtos && d.name == s.action.responseDto && |d.properties| == 1 && d.properties[0].name == "Result"
  {
    var plan := PlanFor(cand).value;
    var (outIface, inIface) := InterfacePair(cand.attribute).value;
    var outMs := MethodsOf(outIface.members);
    var outDtos := AllDtos(plan.className, outIface.name, outMs);
    var inDtos := AllDtos(plan.className, inIface.name, MethodsOf(inIface.members));
    assert plan.dtos == outDtos + inDtos;
    var m := outMs[k];
    var s := plan.stubs[k];
    assert s == StubFor(plan.className, outIface.name, m);
    AllDtosContains(plan.className, outIface.name, outMs, k);
    var req := RequestDto(plan.className, outIface.name, m);
    assert req in plan.dtos;
    forall j | 0 <= j < |s.payloadInits| ensures StartsWith(s.payloadInits[j], req.properties[j].name + " = ") {
      StartsWithConcat(req.properties[j].name + " = ", m.parameters[j].name);
    }
    if s.action.RequestAndReturnResult? {
      var resp := ResponseDto(plan.className, outIface.name, m).value;
      assert resp in plan.dtos;
    }
  }

  /**
   * A stub's signature is `public`, never abstract, and async exactly when the stub awaits a
   * response (Task and Task<T>), unless the return type's own text starts with a modifier word.
   */
  lemma {:induction false} StubAsyncExactlyWhenAwaiting(className: string, iface: string, m: MethodSymbol)
    requires !StartsWith(SignatureTail(m), "abstract ") && !StartsWith(SignatureTail(m), "async ")
    ensures var s := StubFor(className, iface, m);
            ReadModifiers(s.signature) == Some((Modifiers("public", false, s.action == RequestAndAwait || s.action.RequestAndReturnResult?),
                                               SignatureTail(m)))
  {
    var kind := GetReturnKind(m.returnType);
    ReadModifiersOfSignature(m, true, false, false, kind == Task || kind == TaskOfT);
  }

  /** A handler's signature is `protected abstract` and never async. */
  lemma {:induction false} HandlerIsProtectedAbstract(m: MethodSymbol)
    requires !StartsWith(SignatureTail(m), "abstract ") && !StartsWith(SignatureTail(m), "async ")
    ensures ReadModifiers(HandlerSignature(m)) == Some((Modifiers("protected", true, false), SignatureTail(m)))
  {
    ReadModifiersOfSignature(m, false, true, true, false);
  }
}
