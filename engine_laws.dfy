/**
 * Properties of the emitted runtime (module Engine): how Responses resolve the pending table,
 * which message gets which reply, what the stubs send, the ids they take, the race between a
 * Response and the registration of its caller, and a whole call from one endpoint to another.
 */
module EngineLaws {
  import opened Wrappers
  import opened Json
  import opened Wire
  import opened Symbols
  import opened AnalyzerGen
  import opened Engine

  // ---------------------------------------------------------------- Responses

  /**
   * A Response for a pending id removes exactly that entry and completes its caller: with
   * the `err` text when `err` is a string, with the payload when there is no `err` (or it is
   * null); an `err` of any other kind throws after the entry is gone, so nobody is completed.
   */
  lemma {:induction false} ResponseResolvesPending(plan: ClassPlan, pending: map<Int64, Slot>, env: Envelope, outcome: HandlerOutcome)
    requires env.kind == ResponseKind && env.id in pending
    ensures var e := Dispatch(plan, pending, env, outcome);
            e.pending == pending - {env.id} && e.sent == [] && e.invoked.None?
    ensures var e := Dispatch(plan, pending, env, outcome);
            !HasError(env) ==> e.resolved == Some(Resolution(env.id, pending[env.id], Succeeded(env.payload))) && e.fault.None?
    ensures var e := Dispatch(plan, pending, env, outcome);
            HasError(env) && env.err.value.Str? ==>
              e.resolved == Some(Resolution(env.id, pending[env.id], RemoteFailed(env.err.value.s))) && e.fault.None?
    ensures var e := Dispatch(plan, pending, env, outcome);
            HasError(env) && !env.err.value.Str? ==> e.resolved.None? && e.fault == Some(ErrorNotString)
  {
  }

  /** A Response for an id nobody waits for changes nothing, writes nothing and reaches no handler. */
  lemma {:induction false} StrayResponseIgnored(plan: ClassPlan, pending: map<Int64, Slot>, env: Envelope, outcome: HandlerOutcome)
    requires env.kind == ResponseKind && env.id !in pending
    ensures Dispatch(plan, pending, env, outcome) == Effect(pending, [], None, None, None)
  {
  }

  /** What SendResponseAsync writes completes the waiting caller with the payload (`{}` for none). */
  lemma {:induction false} ResponseMessageResolves(plan: ClassPlan, pending: map<Int64, Slot>, iface: string, id: Int64,
                                                   payload: Option<Value>, outcome: HandlerOutcome)
    requires id in pending
    ensures Receive(plan, pending, EncodeResponse(iface, id, payload), outcome)
         == Effect(pending - {id}, [], Some(Resolution(id, pending[id], Succeeded(PayloadOrEmpty(payload)))), None, None)
  {
    DecodeEncodeResponse(iface, id, payload);
  }

  /** What SendErrorAsync writes fails the waiting caller with the error text. */
  lemma {:induction false} ErrorMessageFailsCaller(plan: ClassPlan, pending: map<Int64, Slot>, iface: string, id: Int64,
                                                   text: string, outcome: HandlerOutcome)
    requires id in pending
    ensures Receive(plan, pending, EncodeError(iface, id, text), outcome)
         == Effect(pending - {id}, [], Some(Resolution(id, pending[id], RemoteFailed(text))), None, None)
  {
    DecodeEncodeError(iface, id, text);
  }

  /** A written Response or error for an id that is not pending is a no-op. */
  lemma {:induction false} StrayResponseMessageIgnored(plan: ClassPlan, pending: map<Int64, Slot>, iface: string, id: Int64,
                                                       payload: Option<Value>, text: string, outcome: HandlerOutcome)
    requires id !in pending
    ensures Receive(plan, pending, EncodeResponse(iface, id, payload), outcome) == Effect(pending, [], None, None, None)
    ensures Receive(plan, pending, EncodeError(iface, id, text), outcome) == Effect(pending, [], None, None, None)
  {
    DecodeEncodeResponse(iface, id, payload);
    DecodeEncodeError(iface, id, text);
  }

  // ---------------------------------------------------------------- requests and notifications

  /**
   * A request or a notification for a method the switch does not know gets exactly one error
   * Response with the same id and the text "Unknown inbound method '<m>'"; nothing else changes.
   */
  lemma {:induction false} UnknownMethodGetsError(plan: ClassPlan, pending: map<Int64, Slot>, iface: string, m: string,
                                                  id: Int64, payload: Option<Value>, notification: bool, outcome: HandlerOutcome)
    requires forall k :: 0 <= k < |plan.cases| ==> plan.cases[k].methodName != m
    ensures Receive(plan, pending, EncodeRequest(iface, m, id, payload, notification), outcome)
         == Effect(pending, [EncodeError(plan.inboundIface, id, "Unknown inbound method '" + m + "'")], None, None, None)
    ensures Decode(EncodeError(plan.inboundIface, id, "Unknown inbound method '" + m + "'"))
         == Success(Envelope(id, Some(plan.inboundIface), Some(""), ResponseKind, Some(Str("Unknown inbound method '" + m + "'")), EmptyObject))
  {
    DecodeEncodeRequest(iface, m, id, payload, notification);
    DecodeEncodeError(plan.inboundIface, id, "Unknown inbound method '" + m + "'");
  }

  /** A message with a null method name (and any kind but Response) is answered as the unknown method ''. */
  lemma {:induction false} NullMethodIsUnknown(plan: ClassPlan, pending: map<Int64, Slot>, env: Envelope, outcome: HandlerOutcome)
    requires env.kind != ResponseKind && env.methodName.None?
    ensures Dispatch(plan, pending, env, outcome)
         == Effect(pending, [EncodeError(plan.inboundIface, env.id, "Unknown inbound method ''")], None, None, None)
  {
    assert UnknownMethodMessage(None) == "Unknown inbound method ''";
  }

  /**
   * For a known method, with a payload that binds, the reply follows the handler's return kind:
   * void calls the handler and writes nothing; Task calls it and writes a Response with `{}`;
   * Task<T> calls it and writes a Response with `{"result": value}`; any other return type
   * writes the "Unsupported inbound return type" error without calling it. The table is
   * untouched and nothing escapes.
   */
  lemma {:induction false} ReplyFollowsReturnKind(plan: ClassPlan, pending: map<Int64, Slot>, env: Envelope, v: Value,
                                                  k: nat, m: MethodSymbol)
    requires env.kind != ResponseKind && FindCase(plan.cases, env.methodName) == Some(k)
    requires plan.cases[k] == CaseFor(plan.className, plan.inboundIface, m)
    requires env.payload.Object?
    ensures var e := Dispatch(plan, pending, env, Returned(v));
            e.pending == pending && e.resolved.None? && e.fault.None?
    ensures var e := Dispatch(plan, pending, env, Returned(v));
            GetReturnKind(m.returnType) == Void ==> e.sent == [] && e.invoked == Some(Invocation(m.name, env.payload))
    ensures var e := Dispatch(plan, pending, env, Returned(v));
            GetReturnKind(m.returnType) == Task ==>
              e.sent == [EncodeResponse(plan.inboundIface, env.id, None)] && e.invoked == Some(Invocation(m.name, env.payload))
    ensures var e := Dispatch(plan, pending, env, Returned(v));
            GetReturnKind(m.returnType) == TaskOfT ==>
              e.sent == [EncodeResponse(plan.inboundIface, env.id, Some(ResultObject(v)))] && e.invoked == Some(Invocation(m.name, env.payload))
    ensures var e := Dispatch(plan, pending, env, Returned(v));
            GetReturnKind(m.returnType) == Other ==> e.sent == [EncodeError(plan.inboundIface, env.id, UnsupportedInbound)] && e.invoked.None?
  {
    var c := plan.cases[k];
    assert ArgumentFault(env.payload, c).None?;
  }

  /** A handler that throws ends RunAsync: nothing is written, so a remote caller is never answered. */
  lemma {:induction false} HandlerThrowEscapes(plan: ClassPlan, pending: map<Int64, Slot>, env: Envelope, message: string, k: nat)
    requires env.kind != ResponseKind && FindCase(plan.cases, env.methodName) == Some(k)
    requires plan.cases[k].action != RejectUnsupported && env.payload.Object?
    ensures Dispatch(plan, pending, env, Threw(message))
         == Effect(pending, [], None, Some(Invocation(plan.cases[k].methodName, env.payload)), Some(HandlerFault(message)))
  {
  }

  /**
   * The request DTO is deserialized before the return kind is looked at: a payload that is
   * neither an object nor null throws for every known method, even one whose return type is
   * rejected, and no reply is written.
   */
  lemma {:induction false} MalformedPayloadEscapes(plan: ClassPlan, pending: map<Int64, Slot>, env: Envelope,
                                                   outcome: HandlerOutcome, k: nat)
    requires env.kind != ResponseKind && FindCase(plan.cases, env.methodName) == Some(k)
    requires !env.payload.Object? && !env.payload.Null?
    ensures Dispatch(plan, pending, env, outcome) == Effect(pending, [], None, None, Some(MalformedRequest))
  {
  }

  // ---------------------------------------------------------------- stubs

  /**
   * What a stub writes follows its method's return kind: void writes a notification (k = 2)
   * when there is a transport and never awaits; Task and Task<T> write a request (k = 0) and
   * then await, or throw "No transport"; any other return type throws NotSupportedException.
   */
  lemma {:induction false} StubLaunchByReturnKind(className: string, iface: string, m: MethodSymbol, attached: bool,
                                                  id: Int64, args: Value)
    ensures var l := StubLaunch(StubFor(className, iface, m), attached, id, args);
            GetReturnKind(m.returnType) == Void ==>
              !l.awaits && l.fault.None? && l.sent == (if attached then [EncodeRequest(iface, m.name, id, Some(args), true)] else [])
    ensures var l := StubLaunch(StubFor(className, iface, m), attached, id, args);
            (GetReturnKind(m.returnType) == Task || GetReturnKind(m.returnType) == TaskOfT) ==>
              (attached ==> l == Launch([EncodeRequest(iface, m.name, id, Some(args), false)], None, true))
              && (!attached ==> l == Launch([], Some(NoTransport), false))
    ensures var l := StubLaunch(StubFor(className, iface, m), attached, id, args);
            GetReturnKind(m.returnType) == Other ==> l == Launch([], Some(NotSupported), false)
  {
  }

  /** A stub's message decodes to its id, interface, method and arguments, with kind 2 exactly when it does not await. */
  lemma {:induction false} StubMessageDecodes(stub: OutboundStub, id: Int64, args: Value)
    requires stub.action != ThrowNotSupported
    ensures var l := StubLaunch(stub, true, id, args);
            |l.sent| == 1
            && Decode(l.sent[0]) == Success(Envelope(id, Some(stub.iface), Some(stub.methodName),
                                                     if l.awaits then RequestKind else NotificationKind, None, args))
  {
    DecodeEncodeRequest(stub.iface, stub.methodName, id, Some(args), stub.action == FireNotification);
  }

  /** Without wrap-around, successive stub calls take the ids start+1, start+2, ... */
  lemma {:induction false} IdsCountUp(start: Int64, n: nat)
    requires start + n <= MaxInt64
    ensures |IdsFrom(start, n)| == n
    ensures forall k :: 0 <= k < n ==> IdsFrom(start, n)[k] == start + k + 1
    decreases n
  {
    if n > 0 {
      var next := Increment(start);
      IdsCountUp(next, n - 1);
      assert IdsFrom(start, n) == [next] + IdsFrom(next, n - 1);
    }
  }

  /** From a fresh counter the first id is 2, and later ids are strictly larger. */
  lemma {:induction false} FreshIdsIncrease(n: nat)
    requires n < MaxInt64
    ensures |IdsFrom(InitialNextId, n)| == n
    ensures n > 0 ==> IdsFrom(InitialNextId, n)[0] == 2
    ensures forall i, j :: 0 <= i < j < n ==> IdsFrom(InitialNextId, n)[i] < IdsFrom(InitialNextId, n)[j]
  {
    IdsCountUp(InitialNextId, n);
  }

  /** The counter wraps: after the largest long the next id is the smallest. */
  lemma {:induction false} IdWrapsAround()
    ensures IdsFrom(MaxInt64, 2) == [MinInt64, MinInt64 + 1]
  {
    assert IdsFrom(MinInt64, 1) == [MinInt64 + 1];
  }

  // ---------------------------------------------------------------- registration order

  /**
   * The stub writes its request before it registers: a Response that is handled in between
   * finds no entry and is lost, and the caller's entry then stays pending; once registered,
   * the same Response completes that caller and restores the table.
   */
  lemma {:induction false} ResponseBeforeRegistrationIsLost(plan: ClassPlan, pending: map<Int64, Slot>, iface: string,
                                                            id: Int64, payload: Option<Value>, slot: Slot, outcome: HandlerOutcome)
    requires id !in pending
    ensures var early := Receive(plan, pending, EncodeResponse(iface, id, payload), outcome);
            early.resolved.None? && early.pending[id := slot] == pending[id := slot]
    ensures var late := Receive(plan, pending[id := slot], EncodeResponse(iface, id, payload), outcome);
            late.resolved == Some(Resolution(id, slot, Succeeded(PayloadOrEmpty(payload)))) && late.pending == pending
  {
    StrayResponseMessageIgnored(plan, pending, iface, id, payload, "", outcome);
    ResponseMessageResolves(plan, pending[id := slot], iface, id, payload, outcome);
    assert pending[id := slot] - {id} == pending;
  }

  /**
   * Registering an id that is already pending replaces the earlier caller: the Response
   * completes the new caller, and the earlier one is left in no entry for that id.
   */
  lemma {:induction false} ReRegistrationOrphansEarlierCaller(plan: ClassPlan, pending: map<Int64, Slot>, iface: string,
                                                              id: Int64, payload: Option<Value>, slot: Slot, outcome: HandlerOutcome)
    requires id in pending && pending[id] != slot
    ensures var e := Receive(plan, pending[id := slot], EncodeResponse(iface, id, payload), outcome);
            e.resolved == Some(Resolution(id, slot, Succeeded(PayloadOrEmpty(payload)))) && e.pending == pending - {id}
  {
    ResponseMessageResolves(plan, pending[id := slot], iface, id, payload, outcome);
    assert pending[id := slot] - {id} == pending - {id};
  }

  // ---------------------------------------------------------------- runs

  /** `small` is `big` with some entries removed. */
  ghost predicate SubTable(small: map<Int64, Slot>, big: map<Int64, Slot>) {
    forall id :: id in small ==> id in big && small[id] == big[id]
  }

  /** Every resolution completes the caller that was registered under its id in `pending`. */
  ghost predicate ResolvesFrom(rs: seq<Resolution>, pending: map<Int64, Slot>) {
    forall k :: 0 <= k < |rs| ==> rs[k].id in pending && pending[rs[k].id] == rs[k].slot
  }

  /** No id is resolved twice. */
  ghost predicate DistinctIds(rs: seq<Resolution>) {
    forall i, j :: 0 <= i < j < |rs| ==> rs[i].id != rs[j].id
  }

  /** A Response only removes the entry it resolves. */
  lemma ResolveResponseShrinks(pending: map<Int64, Slot>, env: Envelope)
    ensures var e := ResolveResponse(pending, env);
            SubTable(e.pending, pending)
            && (e.resolved.Some? ==> e.resolved.value.id in pending && pending[e.resolved.value.id] == e.resolved.value.slot
                                     && e.resolved.value.id !in e.pending)
  {
  }

  /** Anything but a Response leaves the table as it is and completes nobody. */
  lemma RunCaseKeepsTable(iface: string, c: InboundCase, pending: map<Int64, Slot>, env: Envelope, outcome: HandlerOutcome)
    ensures RunCase(iface, c, pending, env, outcome).pending == pending
    ensures RunCase(iface, c, pending, env, outcome).resolved.None?
  {
  }

  /** One message only removes entries, and the one it resolves is the one it removed. */
  lemma {:induction false} ReceiveShrinks(plan: ClassPlan, pending: map<Int64, Slot>, msg: Value, outcome: HandlerOutcome)
    ensures var e := Receive(plan, pending, msg, outcome);
            SubTable(e.pending, pending)
            && (e.resolved.Some? ==> e.resolved.value.id in pending && pending[e.resolved.value.id] == e.resolved.value.slot
                                     && e.resolved.value.id !in e.pending)
  {
    match Decode(msg)
    case Failure(_) =>
    case Success(env) =>
      if env.kind == ResponseKind {
        ResolveResponseShrinks(pending, env);
      } else {
        match FindCase(plan.cases, env.methodName)
        case None =>
        case Some(k) => RunCaseKeepsTable(plan.inboundIface, plan.cases[k], pending, env, outcome);
      }
  }

  /** What one message's shrinking and the rest of the run's shrinking give together. */
  lemma {:induction false} ThenShrinks(pending: map<Int64, Slot>, e: Effect, rest: RunResult)
    requires SubTable(e.pending, pending)
    requires e.resolved.Some? ==> e.resolved.value.id in pending && pending[e.resolved.value.id] == e.resolved.value.slot
                                  && e.resolved.value.id !in e.pending
    requires SubTable(rest.pending, e.pending) && ResolvesFrom(rest.resolved, e.pending) && DistinctIds(rest.resolved)
    ensures SubTable(Then(e, rest).pending, pending)
    ensures ResolvesFrom(Then(e, rest).resolved, pending)
    ensures DistinctIds(Then(e, rest).resolved)
  {
    var head := OptionToSeq(e.resolved);
    var rs := head + rest.resolved;
    assert Then(e, rest).resolved == rs;
    forall k | 0 <= k < |rs| ensures rs[k].id in pending && pending[rs[k].id] == rs[k].slot {
      if k >= |head| {
        assert rs[k] == rest.resolved[k - |head|];
      }
    }
    forall i, j | 0 <= i < j < |rs| ensures rs[i].id != rs[j].id {
      if i >= |head| {
        assert rs[i] == rest.resolved[i - |head|] && rs[j] == rest.resolved[j - |head|];
      } else {
        assert rs[j] == rest.resolved[j - |head|];
        assert rs[j].id in e.pending;
      }
    }
  }

  /**
   * Over a whole run, every completed caller was pending under that id when the run began,
   * no id is completed twice, and the table only loses entries.
   */
  lemma {:induction false} RunResolvesOnlyPending(plan: ClassPlan, pending: map<Int64, Slot>, ds: seq<Delivery>)
    ensures SubTable(Run(plan, pending, ds).pending, pending)
    ensures ResolvesFrom(Run(plan, pending, ds).resolved, pending)
    ensures DistinctIds(Run(plan, pending, ds).resolved)
    decreases |ds|
  {
    if |ds| > 0 {
      var e := Receive(plan, pending, ds[0].msg, ds[0].outcome);
      ReceiveShrinks(plan, pending, ds[0].msg, ds[0].outcome);
      RunUnfold(plan, pending, ds);
      if e.fault.Some? {
        ThenShrinks(pending, e, RunResult(e.pending, [], [], [], e.fault));
      } else {
        RunResolvesOnlyPending(plan, e.pending, ds[1..]);
        ThenShrinks(pending, e, Run(plan, e.pending, ds[1..]));
      }
    }
  }

  // ---------------------------------------------------------------- a whole call

  /**
   * A Task<T> call from one endpoint to another: the stub writes a request; the other side's
   * Task<T> case calls its handler with the arguments and writes back `{"result": value}`
   * under the same id; once the caller has registered, that Response completes it and the
   * stub returns the handler's value.
   */
  lemma {:induction false} CallRoundTrip(client: ClassPlan, server: ClassPlan, index: nat, k: nat,
                                         clientPending: map<Int64, Slot>, serverPending: map<Int64, Slot>,
                                         id: Int64, args: Value, slot: Slot, v: Value, outcome: HandlerOutcome)
    requires index < |client.stubs| && client.stubs[index].action.RequestAndReturnResult?
    requires FindCase(server.cases, Some(client.stubs[index].methodName)) == Some(k)
    requires server.cases[k].action.InvokeThenReturnResult?
    requires args.Object?
    ensures var stub := client.stubs[index];
            var launch := StubLaunch(stub, true, id, args);
            launch.awaits && |launch.sent| == 1
            && var served := Receive(server, serverPending, launch.sent[0], Returned(v));
               served.sent == [EncodeResponse(server.inboundIface, id, Some(ResultObject(v)))]
               && served.invoked == Some(Invocation(stub.methodName, args)) && served.fault.None?
               && var back := Receive(client, clientPending[id := slot], served.sent[0], outcome);
                  back.resolved == Some(Resolution(id, slot, Succeeded(ResultObject(v))))
                  && CallerResult(stub.action, back.resolved.value.completion) == CompletedWith(v)
  {
    var stub := client.stubs[index];
    StubMessageDecodes(stub, id, args);
    var launch := StubLaunch(stub, true, id, args);
    var served := Receive(server, serverPending, launch.sent[0], Returned(v));
    assert served.sent == [EncodeResponse(server.inboundIface, id, Some(ResultObject(v)))];
    ResponseMessageResolves(client, clientPending[id := slot], server.inboundIface, id, Some(ResultObject(v)), outcome);
  }

  /**
   * The same call as the code is written: when the loop disposes the message's document before
   * the caller's continuation reads the payload, the stub throws instead of returning the value;
   * when the continuation happens to read first, it returns the value as with the clone.
   */
  lemma {:induction false} TypedCallReadsDisposedDocument(client: ClassPlan, server: ClassPlan, index: nat, k: nat,
                                                          clientPending: map<Int64, Slot>, serverPending: map<Int64, Slot>,
                                                          id: Int64, args: Value, slot: Slot, v: Value, outcome: HandlerOutcome)
    requires index < |client.stubs| && client.stubs[index].action.RequestAndReturnResult?
    requires FindCase(server.cases, Some(client.stubs[index].methodName)) == Some(k)
    requires server.cases[k].action.InvokeThenReturnResult?
    requires args.Object?
    ensures var stub := client.stubs[index];
            var launch := StubLaunch(stub, true, id, args);
            |launch.sent| == 1
            && var served := Receive(server, serverPending, launch.sent[0], Returned(v));
               |served.sent| == 1
               && var back := Receive(client, clientPending[id := slot], served.sent[0], outcome);
                  back.resolved.Some?
                  && CallerResultAsWritten(stub.action, back.resolved.value.completion, DisposeFirst) == Raised(DocumentDisposed)
                  && CallerResultAsWritten(stub.action, back.resolved.value.completion, ContinuationFirst) == CompletedWith(v)
  {
    CallRoundTrip(client, server, index, k, clientPending, serverPending, id, args, slot, v, outcome);
  }
}
