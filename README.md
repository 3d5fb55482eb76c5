# RpcGen in Dafny

RpcGen is a C# source generator for typed, bidirectional RPC over a message transport such as
a WebSocket. A class is marked `[RpcInterface(typeof(IOutbound), typeof(IInbound))]`. The
generator then writes a partial class with three parts:

- an outbound stub for each method of the first interface;
- a protected abstract handler for each method of the second;
- a request DTO (and, for `Task<T>`, a response DTO) for each of those methods.

It also writes the runtime that frames calls as JSON envelopes `{id, i, m, k, err?, p}`.

This project models that behaviour and proves properties of the model:

- **Candidate selection and the shared helpers** (module `Symbols`):
  - which classes are generated for, once each;
  - `GetReturnKind`, `UpperFirst` and `BuildMethodSignature`;
  - DTO names and shapes;
  - the namespace line.
- **The wire envelope** (module `Wire`, over the JSON values of module `Json`): how a message
  is decoded, how the three writers encode, and the round trip between them.
- **The self-contained runtime** emitted by `RpcGenSourceGeneratorAnalyzer.cs`:
  - `AnalyzerGen` is what its `GenerateForClass` emits.
  - `Engine` is the emitted partial class, as the class `RpcEndpoint`. It covers the
    pending-call table, the id counter, `RunAsync`'s loop, the switch over inbound methods, the
    Response handling, `AwaitResponseAsync` and the outbound stubs. The loop body, the loop and
    the stubs are proved equal to pure functions (`Receive`, `Run`, `StubLaunch`); the
    registration and `AttachTransport` state their new state directly.
  - `EngineLaws` holds what is proved about those functions:
    - Responses resolve exactly their pending caller;
    - unknown methods get an error reply;
    - replies follow the handler's return kind;
    - a thrown exception ends the loop;
    - ids count up and wrap;
    - a run only ever resolves callers that were pending;
    - a typed call completes its round trip end to end once the Response loop hands the
      caller a clone of the payload; as written it hands over an element of a document it then
      disposes (see "## Findings").
- **The RpcCore-based generator** of `RpcGenerator.cs` (module `CoreGen`):
  - its plan;
  - the emitted `OnRequestAsync` switch, which returns `false` exactly for unknown methods;
  - stubs that check attachment before anything else;
  - the `RunAsync` guard.

  The calls into RpcCore are recorded, not executed.
- **The sample server** `ServerApp` (module `Channels`): a channel table that only
  `CreateChannel` changes, and the handlers that answer with a `ReceiveMessage` notification.
- **The in-memory transport pair** (module `MockTransport`): FIFO queues, a completed flag and
  a ghost log that proves each enqueued message is read once, in order.

Asynchronous code is modelled as sequential steps. An interleaving, such as a Response that
arrives before the caller has registered, is written as an explicit order of calls.

Where the documented design and the code differ, the model follows the code:

- Only kind 1 is treated as a Response. Notifications (kind 2) and unknown kinds go to the
  method switch, so a notification for an unknown method does get an error Response
  (`EngineLaws.UnknownMethodGetsError`).
- An exception from a handler, from request deserialization or from decoding is not caught.
  It ends `RunAsync` (`Fault`), and the remote caller is never answered.
- An `err` member that is neither a string nor null throws only after the pending entry has
  been removed. That caller is never completed. The `"Remote error"` fallback cannot be
  reached, because `hasErr` excludes JSON null.
- `JsonElement.GetProperty` returns the last member of a duplicated name.

## Model

Source paths are relative to the repository root.

| member | source | states |
|---|---|---|
| Json.FindSpec | RpcGen.SourceGenerator/RpcGen.SourceGenerator/RpcGenSourceGeneratorAnalyzer.cs:139-144 | the member lookup finds a value exactly when some member has the name, and the value found is that of the last such member |
| Json.GetProperty | RpcGen.SourceGenerator/RpcGen.SourceGenerator/RpcGenSourceGeneratorAnalyzer.cs:139-144 | `GetProperty` throws on a non-object root and on a missing member, and otherwise returns the member's value |
| Json.GetInt64 | RpcGen.SourceGenerator/RpcGen.SourceGenerator/RpcGenSourceGeneratorAnalyzer.cs:139 | `GetInt64` succeeds exactly on a number within the range of a long, and returns it |
| Json.GetByte | RpcGen.SourceGenerator/RpcGen.SourceGenerator/RpcGenSourceGeneratorAnalyzer.cs:140 | `GetByte` succeeds exactly on a number in 0..255, and returns it |
| Json.GetString | RpcGen.SourceGenerator/RpcGen.SourceGenerator/RpcGenSourceGeneratorAnalyzer.cs:141-142 | `GetString` returns the string, returns null for JSON null, and throws for any other kind |
| Json.BindRequest | RpcGen.SourceGenerator/RpcGen.SourceGenerator/RpcGenSourceGeneratorAnalyzer.cs:168-170 | deserializing into the request DTO never fails on an object and always throws on a non-object, non-null payload; a null payload makes `req!.X` fail exactly when arguments are read |
| Wire.Decode | RpcGen.SourceGenerator/RpcGen.SourceGenerator/RpcGenSourceGeneratorAnalyzer.cs:137-144 | a message decodes only when it is an object, and the decoded envelope carries the `id`, `k`, `err` and `p` members found (`Wire.DecodeFound` states the converse) |
| Wire.EncodeRequest | RpcGen.SourceGenerator/RpcGen.SourceGenerator/RpcGenSourceGeneratorAnalyzer.cs:222-248 | the request writer emits an object of five members; what they hold is stated by `Wire.DecodeEncodeRequest` |
| Wire.EncodeResponse | RpcGen.SourceGenerator/RpcGen.SourceGenerator/RpcGenSourceGeneratorAnalyzer.cs:252-278 | the response writer emits an object of five members; what they hold is stated by `Wire.DecodeEncodeResponse` |
| Wire.EncodeError | RpcGen.SourceGenerator/RpcGen.SourceGenerator/RpcGenSourceGeneratorAnalyzer.cs:282-299 | the error writer emits an object of six members; what they hold is stated by `Wire.DecodeEncodeError` |
| Wire.DecodeFound | RpcGen.SourceGenerator/RpcGen.SourceGenerator/RpcGenSourceGeneratorAnalyzer.cs:137-144 | decoding succeeds with exactly the fields found when each required member is present and has the expected kind |
| Wire.DecodeEncodeRequest | RpcGen.SourceGenerator/RpcGen.SourceGenerator/RpcGenSourceGeneratorAnalyzer.cs:228-244 | decoding what SendRequestAsync writes gives back its id, interface, method, kind and payload, with no `err` |
| Wire.DecodeEncodeResponse | RpcGen.SourceGenerator/RpcGen.SourceGenerator/RpcGenSourceGeneratorAnalyzer.cs:258-275 | decoding what SendResponseAsync writes gives a kind-1 envelope with the same id and payload and no error |
| Wire.DecodeEncodeError | RpcGen.SourceGenerator/RpcGen.SourceGenerator/RpcGenSourceGeneratorAnalyzer.cs:288-295 | decoding what SendErrorAsync writes gives a kind-1 envelope whose `err` is the text, so it has an error |
| Wire.ErrIsOptional | RpcGen.SourceGenerator/RpcGen.SourceGenerator/RpcGenSourceGeneratorAnalyzer.cs:143 | an `err` member before `p` changes nothing in the decoded envelope but `err` itself |
| Wire.DecodeRequiresField | RpcGen.SourceGenerator/RpcGen.SourceGenerator/RpcGenSourceGeneratorAnalyzer.cs:139-144 | a message that lacks any one of `id`, `k`, `m`, `i`, `p` fails to decode |
| Symbols.MethodsOf | RpcGen.SourceGenerator/RpcGen.SourceGenerator/RpcGenerator.cs:306-307 | the methods kept are exactly the ordinary methods among the members |
| Symbols.MethodsOfAppend | RpcGen.SourceGenerator/RpcGen.SourceGenerator/RpcGenerator.cs:306-307 | the filter keeps declaration order: the methods of two member lists in a row are those of the first, then those of the second |
| Symbols.GetReturnKind | RpcGen.SourceGenerator/RpcGen.SourceGenerator/RpcGenerator.cs:330-350 | void is Void; Task or a type named Task is Task without type arguments and TaskOfT with them; everything else is Other (each an iff) |
| Symbols.ToUpperInvariant | RpcGen.SourceGenerator/RpcGen.SourceGenerator/RpcGenerator.cs:309-310 | a lowercase ASCII letter maps to its uppercase letter, and every other character to itself |
| Symbols.UpperFirst | RpcGen.SourceGenerator/RpcGen.SourceGenerator/RpcGenerator.cs:309-310 | the length is kept, the empty string is unchanged, only the first character is upper-cased and the rest is kept |
| Symbols.UpperFirstIdempotent | RpcGen.SourceGenerator/RpcGen.SourceGenerator/RpcGenerator.cs:309-310 | upper-casing the first character twice is the same as doing it once |
| Symbols.Join | RpcGen.SourceGenerator/RpcGen.SourceGenerator/RpcGenerator.cs:318-322 | `string.Join` of no items is "" and of one item is that item |
| Symbols.JoinSnoc | RpcGen.SourceGenerator/RpcGen.SourceGenerator/RpcGenerator.cs:318-322 | joining one more item appends the separator and the item |
| Symbols.ParameterTexts | RpcGen.SourceGenerator/RpcGen.SourceGenerator/RpcGenerator.cs:318-322 | one "type name" text per parameter, in order |
| Symbols.SignatureShape | RpcGen.SourceGenerator/RpcGen.SourceGenerator/RpcGenerator.cs:312-326 | a signature is the visibility, a space, the optional "abstract " and "async ", and "<ret> <name>(<params>)" |
| Symbols.ReadModifiersOfSignature | RpcGen.SourceGenerator/RpcGen.SourceGenerator/RpcGenerator.cs:312-326 | reading a built signature back gives the visibility chosen (public over protected over private), the abstract and async flags, and the tail |
| Symbols.BuildMethodSignature | RpcGen.SourceGenerator/RpcGen.SourceGenerator/RpcGenerator.cs:312-326 | the signature text: the modifiers, then the return type, the name and the parameter list; `SignatureShape` and `ReadModifiersOfSignature` state its layout and that the modifiers can be read back |
| Symbols.RequestResponseNamesDiffer | RpcGen.SourceGenerator/RpcGen.SourceGenerator/RpcGenerator.cs:197-198 | no request DTO name is ever a response DTO name |
| Symbols.DtoNamesInjective | RpcGen.SourceGenerator/RpcGen.SourceGenerator/RpcGenerator.cs:197-198 | within one class and interface, distinct methods get distinct request and response DTO names |
| Symbols.RequestDto | RpcGen.SourceGenerator/RpcGen.SourceGenerator/RpcGenerator.cs:244-252 | the request DTO is named after class, interface and method, with one property per parameter (its type; its name upper-cased first) |
| Symbols.ResponseDto | RpcGen.SourceGenerator/RpcGen.SourceGenerator/RpcGenerator.cs:254-262 | a response DTO exists exactly for Task<T>, and has the single property `Result` of type T |
| Symbols.AllDtosContains | RpcGen.SourceGenerator/RpcGen.SourceGenerator/RpcGenerator.cs:244-262 | every method's request DTO, and its response DTO when it has one, is among the DTOs emitted for the interface |
| Symbols.AllDtos | RpcGen.SourceGenerator/RpcGen.SourceGenerator/RpcGenerator.cs:244-262 | the DTOs emitted for a method list, method by method: the request DTO and, for `Task<T>`, the response DTO; `AllDtosContains` states that every method's DTOs are among them |
| Symbols.NamespaceLine | RpcGen.SourceGenerator/RpcGen.SourceGenerator/RpcGenerator.cs:96-105 | a `namespace <ns>;` line is emitted exactly when the class has a non-empty containing namespace |
| Symbols.ArgumentList | RpcGen.SourceGenerator/RpcGen.SourceGenerator/RpcGenerator.cs:154 | one handler argument `req!.<UpperFirst(name)>` per parameter, in order |
| Symbols.PayloadInits | RpcGen.SourceGenerator/RpcGen.SourceGenerator/RpcGenerator.cs:216 | one initialiser `<UpperFirst(name)> = <name>` per parameter, in order |
| Symbols.FindRpcAttribute | RpcGen.SourceGenerator/RpcGen.SourceGenerator/RpcGenerator.cs:29-40 | finds the first attribute named RpcInterfaceAttribute or RpcInterface, and finds none exactly when there is none |
| Symbols.Transform | RpcGen.SourceGenerator/RpcGen.SourceGenerator/RpcGenerator.cs:21-42 | a class is a candidate exactly when it has attribute lists, resolves to a symbol and has an RPC attribute; the candidate carries the first such attribute |
| Symbols.Collect | RpcGen.SourceGenerator/RpcGen.SourceGenerator/RpcGenerator.cs:44 | the collected candidates are exactly the non-null results of the transform |
| Symbols.CollectAppend | RpcGen.SourceGenerator/RpcGen.SourceGenerator/RpcGenerator.cs:44 | the candidates keep the order of the declarations: those of two declaration lists in a row are those of the first, then those of the second |
| Symbols.DistinctFromFresh | RpcGen.SourceGenerator/RpcGen.SourceGenerator/RpcGenerator.cs:47-50 | Distinct yields only classes not seen before, and no class twice |
| Symbols.DistinctFromCovers | RpcGen.SourceGenerator/RpcGen.SourceGenerator/RpcGenerator.cs:47-50 | Distinct keeps every class of its input that was not seen before |
| Symbols.DistinctFromFirst | RpcGen.SourceGenerator/RpcGen.SourceGenerator/RpcGenerator.cs:47-50 | each candidate Distinct keeps is the first one of its class |
| Symbols.SelectCandidates | RpcGen.SourceGenerator/RpcGen.SourceGenerator/RpcGenerator.cs:47-50 | the classes generated for: the transform's non-null results, then the first candidate of each class; `SelectCandidatesOncePerClass` states its properties |
| Symbols.SelectCandidatesOncePerClass | RpcGen.SourceGenerator/RpcGen.SourceGenerator/RpcGenerator.cs:47-50 | code is generated for a class exactly when some declaration of it is a candidate, for no class twice, and with its first candidate |
| Symbols.InterfacePair | RpcGen.SourceGenerator/RpcGen.SourceGenerator/RpcGenerator.cs:84-89 | there is a pair exactly when the attribute has two constructor arguments and both are named types; the pair is (outbound, inbound) in that order |
| AnalyzerGen.CaseFor | RpcGen.SourceGenerator/RpcGen.SourceGenerator/RpcGenSourceGeneratorAnalyzer.cs:163-202 | the case for a method matches its name, uses its request DTO and arguments, and its action is invoke, acknowledge, return-result or reject exactly for Void, Task, TaskOfT or Other |
| AnalyzerGen.CasesFor | RpcGen.SourceGenerator/RpcGen.SourceGenerator/RpcGenSourceGeneratorAnalyzer.cs:163-202 | the switch cases of RunAsync, one per inbound method in declaration order; `EmitCases` is proved equal to it and `CasesMatchMethods` states which names have a case |
| AnalyzerGen.StubsFor | RpcGen.SourceGenerator/RpcGen.SourceGenerator/RpcGenSourceGeneratorAnalyzer.cs:303-358 | one outbound stub per outbound method, in declaration order, each the stub `StubFor` gives for that method |
| AnalyzerGen.HandlersFor | RpcGen.SourceGenerator/RpcGen.SourceGenerator/RpcGenSourceGeneratorAnalyzer.cs:383-388 | one `protected abstract` handler signature per inbound method, in declaration order; `EmitHandlers` is proved equal to it and `HandlerIsProtectedAbstract` states the signature's modifiers |
| AnalyzerGen.StubFor | RpcGen.SourceGenerator/RpcGen.SourceGenerator/RpcGenSourceGeneratorAnalyzer.cs:302-358 | the stub keeps the method's signature (async for Task and Task<T>), names and initialisers, and fires a notification, awaits, returns a result or throws exactly for Void, Task, TaskOfT or Other |
| AnalyzerGen.PlanFor | RpcGen.SourceGenerator/RpcGen.SourceGenerator/RpcGenSourceGeneratorAnalyzer.cs:84-94 | a plan is emitted exactly when the attribute names two types |
| AnalyzerGen.GenerateForClass | RpcGen.SourceGenerator/RpcGen.SourceGenerator/RpcGenSourceGeneratorAnalyzer.cs:84-419 | the imperative generator emits exactly the plan |
| AnalyzerGen.EmitCases | RpcGen.SourceGenerator/RpcGen.SourceGenerator/RpcGenSourceGeneratorAnalyzer.cs:163-202 | the loop emits one case per inbound method, in order |
| AnalyzerGen.EmitStubs | RpcGen.SourceGenerator/RpcGen.SourceGenerator/RpcGenSourceGeneratorAnalyzer.cs:302-381 | the loop emits one stub per outbound method, each followed by its DTOs |
| AnalyzerGen.EmitHandlers | RpcGen.SourceGenerator/RpcGen.SourceGenerator/RpcGenSourceGeneratorAnalyzer.cs:383-414 | the loop emits one abstract handler per inbound method, each followed by its DTOs |
| AnalyzerGen.CasesMatchMethods | RpcGen.SourceGenerator/RpcGen.SourceGenerator/RpcGenSourceGeneratorAnalyzer.cs:163-206 | the switch has a case for a name exactly when the method list has a method of that name |
| AnalyzerGen.CasesMatchInboundMethods | RpcGen.SourceGenerator/RpcGen.SourceGenerator/RpcGenSourceGeneratorAnalyzer.cs:163-206 | in a generated class, the switch has a case for a name exactly when the inbound interface has an ordinary method of that name |
| AnalyzerGen.CaseDtosDeclared | RpcGen.SourceGenerator/RpcGen.SourceGenerator/RpcGenSourceGeneratorAnalyzer.cs:383-411 | each inbound case's request DTO is declared, with one property for each argument it reads; a Task<T> case's response DTO is declared with the single property `Result` |
| AnalyzerGen.StubDtosDeclared | RpcGen.SourceGenerator/RpcGen.SourceGenerator/RpcGenSourceGeneratorAnalyzer.cs:360-378 | each stub's request DTO is declared, with one property for each initialiser; a Task<T> stub's response DTO is declared with `Result` |
| AnalyzerGen.StubAsyncExactlyWhenAwaiting | RpcGen.SourceGenerator/RpcGen.SourceGenerator/RpcGenSourceGeneratorAnalyzer.cs:311-316 | a stub signature is public, not abstract, and async exactly when the stub awaits a Response |
| AnalyzerGen.HandlerIsProtectedAbstract | RpcGen.SourceGenerator/RpcGen.SourceGenerator/RpcGenSourceGeneratorAnalyzer.cs:386-388 | a handler signature is protected abstract and never async |
| Engine.ResultObject | RpcGen.SourceGenerator/RpcGen.SourceGenerator/RpcGenSourceGeneratorAnalyzer.cs:190 | the Task<T> response payload is an object whose `result` member is the handler's value |
| Engine.FindCase | RpcGen.SourceGenerator/RpcGen.SourceGenerator/RpcGenSourceGeneratorAnalyzer.cs:163-206 | the switch finds the first case labelled with the method name, and finds none for a null name or an unknown one |
| Engine.ArgumentFault | RpcGen.SourceGenerator/RpcGen.SourceGenerator/RpcGenSourceGeneratorAnalyzer.cs:168-170 | an object payload binds; a null payload faults exactly when a handler with parameters is called; any other payload faults |
| Engine.Increment | RpcGen.SourceGenerator/RpcGen.SourceGenerator/RpcGenSourceGeneratorAnalyzer.cs:318 | `Interlocked.Increment` adds one, and wraps from the largest long to the smallest |
| Engine.RpcEndpoint.constructor | RpcGen.SourceGenerator/RpcGen.SourceGenerator/RpcGenSourceGeneratorAnalyzer.cs:126-128 | a new endpoint has no transport, the counter at 1 and no pending calls |
| Engine.RpcEndpoint.AttachTransport | RpcGen.SourceGenerator/RpcGen.SourceGenerator/RpcGenSourceGeneratorAnalyzer.cs:130 | attaching sets the transport and changes nothing else |
| Engine.RpcEndpoint.HandleResponse | RpcGen.SourceGenerator/RpcGen.SourceGenerator/RpcGenSourceGeneratorAnalyzer.cs:146-156 | a Response TryRemoves its id from the table and completes that caller with the payload or the remote error, as `ResolveResponse` gives; the id counter and the attached flag do not change |
| Engine.RpcEndpoint.HandleMessage | RpcGen.SourceGenerator/RpcGen.SourceGenerator/RpcGenSourceGeneratorAnalyzer.cs:137-207 | one loop iteration leaves the table, the writes, the completion, the handler call and the fault that `Receive` gives |
| Engine.RpcEndpoint.RunAsync | RpcGen.SourceGenerator/RpcGen.SourceGenerator/RpcGenSourceGeneratorAnalyzer.cs:132-209 | it throws without a transport and does nothing else; otherwise it processes the messages in order as `Run` does, stopping at the first fault |
| Engine.RpcEndpoint.BeginCall | RpcGen.SourceGenerator/RpcGen.SourceGenerator/RpcGenSourceGeneratorAnalyzer.cs:318-357 | a stub call first advances the counter and takes the new value as its id, then writes, throws or goes on to await as `StubLaunch` says |
| Engine.RpcEndpoint.AwaitResponse | RpcGen.SourceGenerator/RpcGen.SourceGenerator/RpcGenSourceGeneratorAnalyzer.cs:213-218 | a new completion source is registered under the id, replacing any earlier one |
| Engine.RunCase | RpcGen.SourceGenerator/RpcGen.SourceGenerator/RpcGenSourceGeneratorAnalyzer.cs:163-202 | one switch case: deserialize the request (a fault when that fails), reject an unsupported return type with an error reply, otherwise call the handler and reply by return kind; `ReplyFollowsReturnKind`, `HandlerThrowEscapes` and `MalformedPayloadEscapes` state it per case |
| Engine.Reply | RpcGen.SourceGenerator/RpcGen.SourceGenerator/RpcGenSourceGeneratorAnalyzer.cs:173-199 | what a case writes once its handler has returned: nothing for void, `{}` for Task, `{"result": v}` for Task<T>, the unsupported-return-type error otherwise; `ReplyFollowsReturnKind` states it per kind |
| Engine.ResolveResponse | RpcGen.SourceGenerator/RpcGen.SourceGenerator/RpcGenSourceGeneratorAnalyzer.cs:146-156 | a Response removes its id from the table and completes that caller with the error text or the payload, or does nothing for an id nobody waits for; `ResponseResolvesPending`, `StrayResponseIgnored` and `ResolveResponseShrinks` state it |
| Engine.Dispatch | RpcGen.SourceGenerator/RpcGen.SourceGenerator/RpcGenSourceGeneratorAnalyzer.cs:146-207 | kind 1 goes to the pending table, every other kind to the switch, and a name with no case gets the error reply; `UnknownMethodGetsError` and `NullMethodIsUnknown` state the default case |
| Engine.Receive | RpcGen.SourceGenerator/RpcGen.SourceGenerator/RpcGenSourceGeneratorAnalyzer.cs:137-207 | one loop iteration: a message without the required members throws, otherwise it is dispatched; `ReceiveShrinks` states that it only removes table entries |
| Engine.Run | RpcGen.SourceGenerator/RpcGen.SourceGenerator/RpcGenSourceGeneratorAnalyzer.cs:135-208 | the loop: the messages in order, each on the table the previous one left, stopping at the first that throws; `RunResolvesOnlyPending` states what a run completes |
| Engine.StubLaunch | RpcGen.SourceGenerator/RpcGen.SourceGenerator/RpcGenSourceGeneratorAnalyzer.cs:318-357 | what a stub writes, throws or awaits for its return kind; `StubLaunchByReturnKind` and `StubMessageDecodes` state it |
| Engine.CallerResult | RpcGen.SourceGenerator/RpcGen.SourceGenerator/RpcGenSourceGeneratorAnalyzer.cs:348-350 | what an awaiting stub returns: nothing for `Task`, the `result` member for `Task<T>`, the remote error text as an exception; `CallRoundTrip` states the whole call |
| Engine.CallerResultAsWritten | RpcGen.SourceGenerator/RpcGen.SourceGenerator/RpcGenSourceGeneratorAnalyzer.cs:137-155 | the caller's view as the code is written: a Task<T> stub given an element of the message's document raises the disposed-document error when the loop has disposed it before the stub reads it (`p.GetRawText()`, line 349), and otherwise gets what `CallerResult` gives; `TypedCallReadsDisposedDocument` states both schedules |
| EngineLaws.ResponseResolvesPending | RpcGen.SourceGenerator/RpcGen.SourceGenerator/RpcGenSourceGeneratorAnalyzer.cs:146-156 | a Response for a pending id removes that entry only; it completes the caller with the error text or with the payload; a non-string `err` completes nobody |
| EngineLaws.StrayResponseIgnored | RpcGen.SourceGenerator/RpcGen.SourceGenerator/RpcGenSourceGeneratorAnalyzer.cs:146-156 | a Response for an id nobody waits for changes and writes nothing, and reaches no handler |
| EngineLaws.ResponseMessageResolves | RpcGen.SourceGenerator/RpcGen.SourceGenerator/RpcGenSourceGeneratorAnalyzer.cs:146-156 | what SendResponseAsync writes completes the waiting caller with the payload (`{}` for none) |
| EngineLaws.ErrorMessageFailsCaller | RpcGen.SourceGenerator/RpcGen.SourceGenerator/RpcGenSourceGeneratorAnalyzer.cs:146-156 | what SendErrorAsync writes fails the waiting caller with the error text |
| EngineLaws.StrayResponseMessageIgnored | RpcGen.SourceGenerator/RpcGen.SourceGenerator/RpcGenSourceGeneratorAnalyzer.cs:146-156 | a written Response or error for an id that is not pending does nothing |
| EngineLaws.UnknownMethodGetsError | RpcGen.SourceGenerator/RpcGen.SourceGenerator/RpcGenSourceGeneratorAnalyzer.cs:204-206 | a request or notification for an unknown method gets one error Response with its id and "Unknown inbound method '<m>'"; nothing else changes |
| EngineLaws.NullMethodIsUnknown | RpcGen.SourceGenerator/RpcGen.SourceGenerator/RpcGenSourceGeneratorAnalyzer.cs:141 | a null method name is answered as the unknown method '' |
| EngineLaws.ReplyFollowsReturnKind | RpcGen.SourceGenerator/RpcGen.SourceGenerator/RpcGenSourceGeneratorAnalyzer.cs:173-199 | for a known method: void calls the handler and writes nothing; Task writes `{}`; Task<T> writes `{"result": v}`; Other writes the unsupported error without calling the handler |
| EngineLaws.HandlerThrowEscapes | RpcGen.SourceGenerator/RpcGen.SourceGenerator/RpcGenSourceGeneratorAnalyzer.cs:177-190 | a throwing handler ends the loop with that fault, and no reply is written |
| EngineLaws.MalformedPayloadEscapes | RpcGen.SourceGenerator/RpcGen.SourceGenerator/RpcGenSourceGeneratorAnalyzer.cs:168 | a payload that is neither an object nor null faults every known case, including rejected ones, and nothing is written |
| EngineLaws.StubLaunchByReturnKind | RpcGen.SourceGenerator/RpcGen.SourceGenerator/RpcGenSourceGeneratorAnalyzer.cs:332-357 | void writes a notification when there is a transport and never awaits; Task and Task<T> write a request and await, or throw "No transport"; Other throws NotSupported |
| EngineLaws.StubMessageDecodes | RpcGen.SourceGenerator/RpcGen.SourceGenerator/RpcGenSourceGeneratorAnalyzer.cs:336-347 | a stub's message decodes to its id, interface, method and arguments, with kind 2 exactly when the stub does not await |
| EngineLaws.IdsCountUp | RpcGen.SourceGenerator/RpcGen.SourceGenerator/RpcGenSourceGeneratorAnalyzer.cs:318 | without wrap-around, successive calls take the ids start+1, start+2, … |
| EngineLaws.FreshIdsIncrease | RpcGen.SourceGenerator/RpcGen.SourceGenerator/RpcGenSourceGeneratorAnalyzer.cs:127 | from a fresh counter the first id is 2, and later ids are strictly larger |
| EngineLaws.IdWrapsAround | RpcGen.SourceGenerator/RpcGen.SourceGenerator/RpcGenSourceGeneratorAnalyzer.cs:318 | after the largest long the next id is the smallest |
| EngineLaws.ResponseBeforeRegistrationIsLost | RpcGen.SourceGenerator/RpcGen.SourceGenerator/RpcGenSourceGeneratorAnalyzer.cs:341-342 | a Response handled between the stub's write and its registration is lost, and the caller stays pending; once registered, the same Response completes it |
| EngineLaws.ReRegistrationOrphansEarlierCaller | RpcGen.SourceGenerator/RpcGen.SourceGenerator/RpcGenSourceGeneratorAnalyzer.cs:216 | registering an id that is already pending makes the Response complete the new caller only |
| EngineLaws.ResolveResponseShrinks | RpcGen.SourceGenerator/RpcGen.SourceGenerator/RpcGenSourceGeneratorAnalyzer.cs:148 | a Response removes only the entry it resolves |
| EngineLaws.RunCaseKeepsTable | RpcGen.SourceGenerator/RpcGen.SourceGenerator/RpcGenSourceGeneratorAnalyzer.cs:163-206 | a switch case leaves the table as it is and completes nobody |
| EngineLaws.ReceiveShrinks | RpcGen.SourceGenerator/RpcGen.SourceGenerator/RpcGenSourceGeneratorAnalyzer.cs:137-206 | one message only removes entries, and the entry it resolves is the one it removed |
| EngineLaws.RunResolvesOnlyPending | RpcGen.SourceGenerator/RpcGen.SourceGenerator/RpcGenSourceGeneratorAnalyzer.cs:136-208 | over a run, every completed caller was pending under its id when the run began, no id is completed twice, and the table only loses entries |
| EngineLaws.CallRoundTrip | RpcGen.SourceGenerator/RpcGen.SourceGenerator/RpcGenSourceGeneratorAnalyzer.cs:346-350 | a Task<T> stub's request reaches the peer's Task<T> case, whose `{"result": v}` reply completes the registered caller, and the stub returns v, with the payload cloned before it is handed over (see "## Findings") |
| EngineLaws.TypedCallReadsDisposedDocument | RpcGen.SourceGenerator/RpcGen.SourceGenerator/RpcGenSourceGeneratorAnalyzer.cs:137-155 | for the same call as the code is written, the stub throws on the disposed document when the loop disposes it first, and returns the value only when its continuation reads first |
| CoreGen.CaseFor | RpcGen.SourceGenerator/RpcGen.SourceGenerator/RpcGenerator.cs:147-185 | the OnRequestAsync case for a method matches its name and uses its request DTO and arguments; it returns true after invoking, acknowledging, replying with the result or rejecting, exactly for Void, Task, TaskOfT or Other |
| CoreGen.CasesFor | RpcGen.SourceGenerator/RpcGen.SourceGenerator/RpcGenerator.cs:147-185 | the `OnRequestAsync` cases, one per inbound method in declaration order; `EmitCases` is proved equal to it and `CasesMatchMethods` states which names have a case |
| CoreGen.HandlersFor | RpcGen.SourceGenerator/RpcGen.SourceGenerator/RpcGenerator.cs:268-272 | one `protected abstract` handler signature per inbound method, in declaration order; `EmitHandlers` is proved equal to it |
| CoreGen.StubFor | RpcGen.SourceGenerator/RpcGen.SourceGenerator/RpcGenerator.cs:194-241 | the stub calls NotifyAsync, RequestAsync, the typed RequestAsync with its DTO types, or throws, exactly for Void, Task, TaskOfT or Other |
| CoreGen.StubsFor | RpcGen.SourceGenerator/RpcGen.SourceGenerator/RpcGenerator.cs:194-265 | one stub per outbound method, in order |
| CoreGen.PlanFor | RpcGen.SourceGenerator/RpcGen.SourceGenerator/RpcGenerator.cs:84-89 | a plan is emitted exactly when the attribute names two types |
| CoreGen.GenerateForClass | RpcGen.SourceGenerator/RpcGen.SourceGenerator/RpcGenerator.cs:79-303 | the imperative generator emits exactly the plan |
| CoreGen.EmitCases | RpcGen.SourceGenerator/RpcGen.SourceGenerator/RpcGenerator.cs:147-185 | the loop emits one case per inbound method, in order |
| CoreGen.EmitStubs | RpcGen.SourceGenerator/RpcGen.SourceGenerator/RpcGenerator.cs:194-265 | the loop emits one stub per outbound method, each followed by its DTOs |
| CoreGen.EmitHandlers | RpcGen.SourceGenerator/RpcGen.SourceGenerator/RpcGenerator.cs:267-298 | the loop emits one abstract handler per inbound method, each followed by its DTOs |
| CoreGen.FindCase | RpcGen.SourceGenerator/RpcGen.SourceGenerator/RpcGenerator.cs:145-188 | the switch finds the first case labelled with the name, and finds none exactly when no case has it |
| CoreGen.RunCase | RpcGen.SourceGenerator/RpcGen.SourceGenerator/RpcGenerator.cs:151-183 | one `case`: deserialize, then per return kind call the handler and `SendResponseAsync`, or `SendErrorAsync` for an unsupported one, and return true; `CaseCallsFollowReturnKind` states it |
| CoreGen.OnRequest | RpcGen.SourceGenerator/RpcGen.SourceGenerator/RpcGenerator.cs:141-190 | the switch returns false and does nothing exactly for a name with no case; `HandledExactlyForInboundMethods` and `GeneratedSwitchHandlesInbound` state it |
| CoreGen.StubCall | RpcGen.SourceGenerator/RpcGen.SourceGenerator/RpcGenerator.cs:207-241 | the attach check first, then the RpcCore call for the return kind or the unsupported-type exception; `StubCallFollowsReturnKind` states it |
| CoreGen.CoreEndpoint.constructor | RpcGen.SourceGenerator/RpcGen.SourceGenerator/RpcGenerator.cs:123-124 | a new instance has neither a transport nor a core |
| CoreGen.CoreEndpoint.AttachTransport | RpcGen.SourceGenerator/RpcGen.SourceGenerator/RpcGenerator.cs:126-131 | attaching sets both the transport and the core |
| CoreGen.CoreEndpoint.RunAsync | RpcGen.SourceGenerator/RpcGen.SourceGenerator/RpcGenerator.cs:133-137 | RunAsync throws "not attached" exactly when no transport has been attached, and otherwise hands over to RpcCore's loop |
| CoreGen.CoreEndpoint.CallStub | RpcGen.SourceGenerator/RpcGen.SourceGenerator/RpcGenerator.cs:207-241 | a stub call does what `StubCall` says: the attach check first, then the RpcCore call |
| CoreGen.CasesMatchMethods | RpcGen.SourceGenerator/RpcGen.SourceGenerator/RpcGenerator.cs:147-150 | the switch has a case for a name exactly when the method list has a method of that name |
| CoreGen.HandledExactlyForInboundMethods | RpcGen.SourceGenerator/RpcGen.SourceGenerator/RpcGenerator.cs:145-188 | unless something throws, OnRequestAsync returns true exactly for known methods; for an unknown one it returns false and does nothing |
| CoreGen.GeneratedSwitchHandlesInbound | RpcGen.SourceGenerator/RpcGen.SourceGenerator/RpcGenerator.cs:145-188 | in a generated class, the same holds with the inbound interface's methods |
| CoreGen.CaseCallsFollowReturnKind | RpcGen.SourceGenerator/RpcGen.SourceGenerator/RpcGenerator.cs:157-182 | for a known method with a binding payload the RpcCore calls follow the return kind: none for Void, SendResponse(null) for Task, SendResponse(result) for TaskOfT, SendError "Unsupported inbound return type" for Other (no handler call); the result is true |
| CoreGen.StubCallFollowsReturnKind | RpcGen.SourceGenerator/RpcGen.SourceGenerator/RpcGenerator.cs:207-241 | an unattached stub throws "not attached" whatever its return type; attached, it notifies without awaiting, requests and awaits, requests typed and awaits, or throws NotSupported |
| CoreGen.TypedRequestDtosDeclared | RpcGen.SourceGenerator/RpcGen.SourceGenerator/RpcGenerator.cs:232-262 | the DTO types a Task<T> stub passes to RequestAsync are declared, the response one with the single property `Result` |
| Channels.GuidText | RpcGen.Sample/ServerApp.cs:47 | a Guid's text is 36 characters, with dashes at 8, 13, 18 and 23, and its digits in order between them |
| Channels.GuidTextInjective | RpcGen.Sample/ServerApp.cs:47 | different Guids have different texts |
| Channels.VisitChannel | RpcGen.Sample/ServerApp.cs:37-75 | a handler succeeds exactly on a known channel, sending one notification on that channel; on an unknown channel it fails with "Channel '<id>' does not exist" and sends nothing |
| Channels.ServerApp.constructor | RpcGen.Sample/ServerApp.cs:11-19 | a new server has an empty table and an empty client name |
| Channels.ServerApp.SetClientName | RpcGen.Sample/ServerApp.cs:13 | setting the client name leaves the table unchanged |
| Channels.ServerApp.CreateChannel | RpcGen.Sample/ServerApp.cs:21-29 | a fresh id adds exactly the entry id→name and returns the id; a taken id fails with "Unable to create channel, try again later" and leaves the table unchanged |
| Channels.ServerApp.GetChannelList | RpcGen.Sample/ServerApp.cs:31-35 | the list holds exactly the table's (id, name) entries, each id once |
| Channels.ServerApp.JoinChannel | RpcGen.Sample/ServerApp.cs:37-48 | as `VisitChannel`: `ReceiveMessage(id, "server", "Welcome to '<name>' <client>")`, or the does-not-exist error; the table is only read |
| Channels.ServerApp.LeaveChannel | RpcGen.Sample/ServerApp.cs:51-62 | as `VisitChannel`: `ReceiveMessage(id, "server", "<client> Left '<name>'")`, or the error |
| Channels.ServerApp.SendMessage | RpcGen.Sample/ServerApp.cs:64-75 | as `VisitChannel`: the message echoed as `ReceiveMessage(id, "client", message)`, or the error |
| Channels.CreatedChannelIsVisitable | RpcGen.Sample/ServerApp.cs:21-75 | after creating a channel, joining, leaving and sending on it succeed, and the notifications carry the name it was created with |
| Channels.CreateLeavesOtherChannels | RpcGen.Sample/ServerApp.cs:21-48 | creating one channel does not change what the handlers do on any other |
| Channels.UnknownChannelNamesId | RpcGen.Sample/ServerApp.cs:47 | two does-not-exist errors are equal only for the same id |
| MockTransport.Transport.constructor | RpcGen.Sample/MockWebSocketTransport.cs:13-17 | a new transport has an empty queue, no signals, is not completed and has no peer |
| MockTransport.Transport.CreatePair | RpcGen.Sample/MockWebSocketTransport.cs:19-26 | two fresh, distinct, empty transports, each the other's peer |
| MockTransport.Transport.SendAsync | RpcGen.Sample/MockWebSocketTransport.cs:28-36 | unpaired sends fail with "Transport is not paired."; sends to a completed peer are dropped and change nothing; otherwise the data goes on the end of the peer's queue with one more signal, and the sender's own queue is unchanged |
| MockTransport.Transport.Drain | RpcGen.Sample/MockWebSocketTransport.cs:45-46 | dequeuing yields the whole queue in order and empties it |
| MockTransport.Transport.ReadTurn | RpcGen.Sample/MockWebSocketTransport.cs:41-46 | a reader at the loop check stops on cancellation or completion; a reader past it, or still suspended in `WaitAsync`, takes a signal and yields the whole queue in order without re-checking completion, stays suspended while there is no signal, and ends with a cancellation exception when cancelled while suspended |
| MockTransport.Transport.Complete | RpcGen.Sample/MockWebSocketTransport.cs:50-54 | completing sets the flag and adds one signal, and leaves the queue unchanged |
| MockTransport.SendTwice | RpcGen.Sample/MockWebSocketTransport.cs:33-34 | two sends arrive in the peer's queue behind what is already there, in order |
| MockTransport.CompleteThenSend | RpcGen.Sample/MockWebSocketTransport.cs:28-54 | after Complete, a send to that transport is dropped and a reader at the loop check stops |
| MockTransport.WaitSendComplete | RpcGen.Sample/MockWebSocketTransport.cs:28-54 | a reader suspended in `WaitAsync` is woken by a send, yields that message and stops only on the next turn, even when Complete came in between: no message is lost |

## Findings

| source | as written | input that shows it | evidently intended | confidence | as-written member | corrected member |
|---|---|---|---|---|---|---|
| RpcGen.SourceGenerator/RpcGen.SourceGenerator/RpcGenSourceGeneratorAnalyzer.cs:137-155 | the Response branch completes the caller with `payload`, an element of the message's `JsonDocument`, and the `using` declaration disposes that document when the iteration ends at `continue`; the completion source runs continuations asynchronously (line 215), so a `Task<T>` stub reads `p.GetRawText()` (line 349) on a disposed document | a `Task<T>` call such as `Welcome()` answered with `{"result": v}`, with the loop thread disposing the document before the thread pool runs the caller's continuation | `tcs.TrySetResult(payload.Clone())`, so the caller owns the element and the stub returns v | not executed; depends on thread scheduling, the disposal usually coming first | EngineLaws.TypedCallReadsDisposedDocument | EngineLaws.CallRoundTrip |

## Left out

- Roslyn is not modelled. This covers the `SyntaxProvider`, the `SemanticModel`, symbol display beyond the parts kept in `TypeSymbol`, `SourceText`, `AddSource` text, and the `RPCGEN001` diagnostic. The `catch` around `GenerateForClass` is also out, because the model has no exceptions to catch there. Symbols are abstract method descriptors and the plan stands for the text written.
- The text of the emitted source is not modelled: `using` lines, braces, comments, and the runtime source string. Only the decisions that shape it are kept.
- System.Text.Json is not modelled:
  - byte-level parsing and `JsonDocument.Parse` failures;
  - non-integral numbers;
  - conversions of DTO property types;
  - the camelCase policy beyond the single property `Result`.

  Messages are JSON values.
- Engine.CallerResult: a missing `result` member is modelled as JSON null, not as `default(T)` after deserialization.
- Engine.RpcEndpoint.HandleMessage: a failing `SendAsync` on the transport is not modelled. Writes are recorded and always succeed.
- `WebSocketTransport` is not part of this model. It is network I/O.
- `RpcCore` is not part of this model, so CoreGen only records the calls the emitted code makes into it.
- CoreGen.CoreEndpoint.CallStub: RpcCore's `NotifyAsync`/`RequestAsync` and its `resp!.Result` are not modelled. The stub's outcome is the call it makes.
- Concurrency is modelled as sequential steps: `ConcurrentDictionary`, `Interlocked`, `TaskCompletionSource`, `SemaphoreSlim`, `volatile` and async/await. A stub's write and its registration are two calls (`BeginCall`, `AwaitResponse`), so a Response can be placed between them.
- An exception thrown inside an `async` stub or handler is modelled as the fault of that call. The difference between throwing synchronously and returning a faulted task is not kept.
- Cancellation tokens are not modelled. The transport's read turn takes "cancellation has been requested" as a parameter; a signal already released counts as having woken the reader before the cancellation is seen.
- Handler side effects are not modelled. A handler is represented by its outcome, a returned value or a thrown message, which is passed in.
- Symbols.ToUpperInvariant: only ASCII letters are upper-cased. Other Unicode case mappings are not modelled.
- Overloaded interface methods (two methods with one name) are not modelled as such: C# accepts them in an interface, but the generated file then has two `case` labels with the same name and two DTO classes with the same name, and does not compile. The model's switch takes the first matching case, standing in for code that does not compile.
- `Console.WriteLine` logging in `ServerApp` is not modelled.
- `Guid.NewGuid` is not modelled. The fresh id is a parameter of `CreateChannel`.
- Channels.GuidText: a Guid is its 32 lowercase hex digits in text order. The byte layout of `System.Guid` is not modelled.
- The `ServerApp` constructor's `AttachTransport` call is not modelled. The server's notifications are returned as values, not sent through the generated stub.
