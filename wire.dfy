/**
 * The wire envelope of the generated runtime: the record `{id, i, m, k, err?, p}` that
 * SendRequestAsync, SendResponseAsync and SendErrorAsync write and that RunAsync reads back.
 */
module Wire {
  import opened Wrappers
  import opened Json

  /** RpcKind, written as a byte in field `k`. */
  const RequestKind: Byte := 0
  const ResponseKind: Byte := 1
  const NotificationKind: Byte := 2

  /**
   * A decoded inbound message. `kind` is the raw byte: the runtime casts it to RpcKind
   * without checking, so values other than 0, 1 and 2 decode too. `methodName` and `ifaceName`
   * are `None` for a JSON null (GetString returns null). `err` is the raw `err` member,
   * if there is one.
   */
  datatype Envelope = Envelope(
    id: Int64,
    ifaceName: Option<string>,
    methodName: Option<string>,
    kind: Byte,
    err: Option<Value>,
    payload: Value)

  /** `hasErr`: the message carries an `err` member that is not JSON null. */
  predicate HasError(e: Envelope) {
    e.err.Some? && !e.err.value.Null?
  }

  /** What the writers put under `p`: the serialized payload, or `{}` for a null payload. */
  function PayloadOrEmpty(payload: Option<Value>): Value {
    match payload
    case None => EmptyObject
    case Some(p) => p
  }

  /**
   * RunAsync's decoding of one message: `id` (long), `k` (byte), `m` and `i` (string
   * or null) and `p` are read in that order and each is required; `err` is optional.
   */
  function Decode(msg: Value): (r: Result<Envelope, JsonError>)
    ensures r.Success? ==> msg.Object?
    ensures r.Success? ==> Find(msg.members, "id") == Some(Number(r.value.id))
    ensures r.Success? ==> Find(msg.members, "k") == Some(Number(r.value.kind))
    ensures r.Success? ==> Find(msg.members, "p") == Some(r.value.payload)
    ensures r.Success? ==> r.value.err == Find(msg.members, "err")
  {
    var idv :- GetProperty(msg, "id");
    var id :- GetInt64(idv, "id");
    var kv :- GetProperty(msg, "k");
    var kind :- GetByte(kv, "k");
    var mv :- GetProperty(msg, "m");
    var methodName :- GetString(mv, "m");
    var iv :- GetProperty(msg, "i");
    var ifaceName :- GetString(iv, "i");
    var err := TryGetProperty(msg, "err");
    var payload :- GetProperty(msg, "p");
    Success(Envelope(id, ifaceName, methodName, kind, err, payload))
  }

  /** SendRequestAsync: members id, i, m, k, p in that order; `k` is 2 for a notification and 0 otherwise. */
  function EncodeRequest(iface: string, methodName: string, id: Int64, payload: Option<Value>, notification: bool): (r: Value)
    ensures r.Object? && |r.members| == 5
  {
    Object([
      Member("id", Number(id)),
      Member("i", Str(iface)),
      Member("m", Str(methodName)),
      Member("k", Number(if notification then NotificationKind else RequestKind)),
      Member("p", PayloadOrEmpty(payload))])
  }

  /** SendResponseAsync: a Response (k = 1) with method "" and no `err` member. */
  function EncodeResponse(iface: string, id: Int64, payload: Option<Value>): (r: Value)
    ensures r.Object? && |r.members| == 5
  {
    Object([
      Member("id", Number(id)),
      Member("i", Str(iface)),
      Member("m", Str("")),
      Member("k", Number(ResponseKind)),
      Member("p", PayloadOrEmpty(payload))])
  }

  /** SendErrorAsync: a Response (k = 1) with method "", the `err` text and `p` = `{}`. */
  function EncodeError(iface: string, id: Int64, error: string): (r: Value)
    ensures r.Object? && |r.members| == 6
  {
    Object([
      Member("id", Number(id)),
      Member("i", Str(iface)),
      Member("m", Str("")),
      Member("k", Number(ResponseKind)),
      Member("err", Str(error)),
      Member("p", EmptyObject)])
  }

  /** Decode succeeds exactly with the fields found in the message, when each has the expected kind. */
  lemma DecodeFound(msg: Value, id: Int64, kind: Byte, methodName: string, iface: string, payload: Value)
    requires msg.Object?
    requires Find(msg.members, "id") == Some(Number(id))
    requires Find(msg.members, "k") == Some(Number(kind))
    requires Find(msg.members, "m") == Some(Str(methodName))
    requires Find(msg.members, "i") == Some(Str(iface))
    requires Find(msg.members, "p") == Some(payload)
    ensures Decode(msg) == Success(Envelope(id, Some(iface), Some(methodName), kind, Find(msg.members, "err"), payload))
  {
    assert GetProperty(msg, "id") == Success(Number(id));
    assert GetInt64(Number(id), "id") == Success(id);
    assert GetProperty(msg, "k") == Success(Number(kind));
    assert GetByte(Number(kind), "k") == Success(kind);
    assert GetProperty(msg, "m") == Success(Str(methodName));
    assert GetProperty(msg, "i") == Success(Str(iface));
    assert GetProperty(msg, "p") == Success(payload);
  }

  /** Decoding what SendRequestAsync writes gives back every field it was given. */
  lemma {:induction false} DecodeEncodeRequest(iface: string, methodName: string, id: Int64, payload: Option<Value>, notification: bool)
    ensures Decode(EncodeRequest(iface, methodName, id, payload, notification))
         == Success(Envelope(id, Some(iface), Some(methodName),
                             if notification then NotificationKind else RequestKind,
                             None, PayloadOrEmpty(payload)))
  {
    var msg := EncodeRequest(iface, methodName, id, payload, notification);
    FindInFive(msg.members);
    DecodeFound(msg, id, if notification then NotificationKind else RequestKind, methodName, iface, PayloadOrEmpty(payload));
  }

  /** Decoding what SendResponseAsync writes gives a Response with the same id and payload and no error. */
  lemma {:induction false} DecodeEncodeResponse(iface: string, id: Int64, payload: Option<Value>)
    ensures Decode(EncodeResponse(iface, id, payload))
         == Success(Envelope(id, Some(iface), Some(""), ResponseKind, None, PayloadOrEmpty(payload)))
  {
    var msg := EncodeResponse(iface, id, payload);
    FindInFive(msg.members);
    DecodeFound(msg, id, ResponseKind, "", iface, PayloadOrEmpty(payload));
  }

  /** Decoding what SendErrorAsync writes gives a Response with the same id whose `err` is the text. */
  lemma {:induction false} DecodeEncodeError(iface: string, id: Int64, error: string)
    ensures Decode(EncodeError(iface, id, error))
         == Success(Envelope(id, Some(iface), Some(""), ResponseKind, Some(Str(error)), EmptyObject))
    ensures HasError(Decode(EncodeError(iface, id, error)).value)
  {
    var msg := EncodeError(iface, id, error);
    FindWithErr(msg.members);
    DecodeFound(msg, id, ResponseKind, "", iface, EmptyObject);
  }

  /** Lookups in the four members `id, i, m, k` that every writer puts first. */
  lemma FindInFour(ms: seq<Member>)
    requires |ms| == 4 && ms[0].name == "id" && ms[1].name == "i" && ms[2].name == "m" && ms[3].name == "k"
    ensures Find(ms, "id") == Some(ms[0].value)
    ensures Find(ms, "i") == Some(ms[1].value)
    ensures Find(ms, "m") == Some(ms[2].value)
    ensures Find(ms, "k") == Some(ms[3].value)
    ensures Find(ms, "err") == None && Find(ms, "p") == None
  {
    var m3 := ms[..3];
    var m2 := m3[..2];
    var m1 := m2[..1];
    assert m3[2] == ms[2] && m2[1] == ms[1] && m1[0] == ms[0];
    assert m1[..0] == [];
    assert Find(ms, "m") == Find(m3, "m") == Some(ms[2].value);
    assert Find(ms, "i") == Find(m3, "i") == Find(m2, "i") == Some(ms[1].value);
    assert Find(ms, "id") == Find(m3, "id") == Find(m2, "id") == Find(m1, "id") == Some(ms[0].value);
    assert Find(ms, "err") == Find(m3, "err") == Find(m2, "err") == Find(m1, "err") == None;
    assert Find(ms, "p") == Find(m3, "p") == Find(m2, "p") == Find(m1, "p") == None;
  }

  /** Lookups in the five members `id, i, m, k, p` of a request or a response. */
  lemma FindInFive(ms: seq<Member>)
    requires |ms| == 5 && ms[0].name == "id" && ms[1].name == "i" && ms[2].name == "m" && ms[3].name == "k" && ms[4].name == "p"
    ensures Find(ms, "id") == Some(ms[0].value)
    ensures Find(ms, "i") == Some(ms[1].value)
    ensures Find(ms, "m") == Some(ms[2].value)
    ensures Find(ms, "k") == Some(ms[3].value)
    ensures Find(ms, "p") == Some(ms[4].value)
    ensures Find(ms, "err") == None
  {
    var m4 := ms[..4];
    assert ms[..|ms| - 1] == m4;
    FindInFour(m4);
    assert Find(ms, "err") == Find(m4, "err");
  }

  /** Lookups in the six members `id, i, m, k, err, p` of an error response. */
  lemma FindWithErr(ms: seq<Member>)
    requires |ms| == 6 && ms[0].name == "id" && ms[1].name == "i" && ms[2].name == "m" && ms[3].name == "k"
    requires ms[4].name == "err" && ms[5].name == "p"
    ensures Find(ms, "id") == Some(ms[0].value)
    ensures Find(ms, "i") == Some(ms[1].value)
    ensures Find(ms, "m") == Some(ms[2].value)
    ensures Find(ms, "k") == Some(ms[3].value)
    ensures Find(ms, "err") == Some(ms[4].value)
    ensures Find(ms, "p") == Some(ms[5].value)
  {
    var m5 := ms[..5];
    assert ms[..|ms| - 1] == m5;
    var m4 := m5[..4];
    assert m5[..|m5| - 1] == m4;
    FindInFour(m4);
  }

  /** `err` is optional: adding an `err` member before `p` changes nothing but the decoded `err`. */
  lemma {:induction false} ErrIsOptional(iface: string, id: Int64, errValue: Value, payload: Value)
    ensures var plain := Object([Member("id", Number(id)), Member("i", Str(iface)), Member("m", Str("")),
                                 Member("k", Number(ResponseKind)), Member("p", payload)]);
            var withErr := Object([Member("id", Number(id)), Member("i", Str(iface)), Member("m", Str("")),
                                   Member("k", Number(ResponseKind)), Member("err", errValue), Member("p", payload)]);
            Decode(plain).Success? && Decode(withErr).Success?
            && Decode(withErr).value == Decode(plain).value.(err := Some(errValue))
  {
    var plain := Object([Member("id", Number(id)), Member("i", Str(iface)), Member("m", Str("")),
                         Member("k", Number(ResponseKind)), Member("p", payload)]);
    var withErr := Object([Member("id", Number(id)), Member("i", Str(iface)), Member("m", Str("")),
                           Member("k", Number(ResponseKind)), Member("err", errValue), Member("p", payload)]);
    FindInFive(plain.members);
    DecodeFound(plain, id, ResponseKind, "", iface, payload);
    FindWithErr(withErr.members);
    DecodeFound(withErr, id, ResponseKind, "", iface, payload);
  }

  /** Each of the five members is required: a message without one of them does not decode. */
  lemma {:induction false} DecodeRequiresField(msg: Value, name: string)
    requires name in ["id", "k", "m", "i", "p"]
    requires msg.Object? && Find(msg.members, name).None?
    ensures Decode(msg).Failure?
  {
  }
}
