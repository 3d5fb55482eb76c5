/**
 * The structured JSON values that the generated runtime reads and writes through
 * System.Text.Json (JsonElement / Utf8JsonWriter), and the accessors it uses on them.
 * Text, bytes and the serializer are abstracted away: a message is a parsed value.
 */
module Json {
  import opened Wrappers

  /** A JSON value. Only integral numbers are represented. */
  datatype Value =
    | Null
    | Bool(b: bool)
    | Number(n: int)
    | Str(s: string)
    | Array(items: seq<Value>)
    | Object(members: seq<Member>)

  /** One `"name": value` member of an object, in document order. */
  datatype Member = Member(name: string, value: Value)

  /** `{}` */
  const EmptyObject: Value := Object([])

  const MinInt64: int := -0x8000_0000_0000_0000
  const MaxInt64: int := 0x7FFF_FFFF_FFFF_FFFF

  /** A C# `long`. */
  type Int64 = x: int | -0x8000_0000_0000_0000 <= x <= 0x7FFF_FFFF_FFFF_FFFF

  /** A C# `byte`. */
  type Byte = x: int | 0 <= x < 256

  /** Why an accessor threw. */
  datatype JsonError =
    | NotAnObject               // GetProperty on a value that is not an object
    | MissingProperty(name: string)  // KeyNotFoundException from GetProperty
    | WrongKind(name: string)   // InvalidOperationException: the value has another JSON kind
    | OutOfRange(name: string)  // FormatException: the number does not fit the requested type

  /**
   * The member named `name`; when the name occurs more than once the LAST
   * occurrence is the one JsonElement.GetProperty/TryGetProperty return.
   */
  function Find(members: seq<Member>, name: string): Option<Value>
    decreases |members|
  {
    if |members| == 0 then None
    else if members[|members| - 1].name == name then Some(members[|members| - 1].value)
    else Find(members[..|members| - 1], name)
  }

  /** Find finds a value exactly when some member has the name, and then the value of the last such member. */
  lemma {:induction false} FindSpec(members: seq<Member>, name: string)
    ensures Find(members, name).None? <==> forall j :: 0 <= j < |members| ==> members[j].name != name
    ensures Find(members, name).Some? ==>
              exists j :: 0 <= j < |members| && members[j].name == name && members[j].value == Find(members, name).value
                          && forall k :: j < k < |members| ==> members[k].name != name
    decreases |members|
  {
    if |members| > 0 && members[|members| - 1].name != name {
      var init := members[..|members| - 1];
      FindSpec(init, name);
      assert forall j :: 0 <= j < |init| ==> init[j] == members[j];
      if Find(init, name).Some? {
        var j :| 0 <= j < |init| && init[j].name == name && init[j].value == Find(init, name).value
                 && forall k :: j < k < |init| ==> init[k].name != name;
        assert members[j].name == name && members[j].value == Find(members, name).value;
      }
    } else if |members| > 0 {
      assert members[|members| - 1].name == name;
    }
  }

  /** JsonElement.GetProperty: the root must be an object that has the member. */
  function GetProperty(root: Value, name: string): (r: Result<Value, JsonError>)
    ensures r.Success? <==> root.Object? && Find(root.members, name).Some?
    ensures r.Success? ==> r.value == Find(root.members, name).value
  {
    if !root.Object? then Failure(NotAnObject)
    else match Find(root.members, name)
      case None => Failure(MissingProperty(name))
      case Some(v) => Success(v)
  }

  /** JsonElement.TryGetProperty on an object. */
  function TryGetProperty(root: Value, name: string): Option<Value>
    requires root.Object?
  {
    Find(root.members, name)
  }

  /** JsonElement.GetInt64. */
  function GetInt64(v: Value, name: string): (r: Result<Int64, JsonError>)
    ensures r.Success? <==> v.Number? && MinInt64 <= v.n <= MaxInt64
    ensures r.Success? ==> r.value == v.n
  {
    if !v.Number? then Failure(WrongKind(name))
    else if MinInt64 <= v.n <= MaxInt64 then Success(v.n)
    else Failure(OutOfRange(name))
  }

  /** JsonElement.GetByte. */
  function GetByte(v: Value, name: string): (r: Result<Byte, JsonError>)
    ensures r.Success? <==> v.Number? && 0 <= v.n < 256
    ensures r.Success? ==> r.value == v.n
  {
    if !v.Number? then Failure(WrongKind(name))
    else if 0 <= v.n < 256 then Success(v.n)
    else Failure(OutOfRange(name))
  }

  /** JsonElement.GetString: a string, `null` for a JSON null, and a throw for any other kind. */
  function GetString(v: Value, name: string): (r: Result<Option<string>, JsonError>)
    ensures r.Success? <==> v.Str? || v.Null?
    ensures r == Success(None) <==> v.Null?
    ensures v.Str? ==> r == Success(Some(v.s))
  {
    match v
    case Str(s) => Success(Some(s))
    case Null => Success(None)
    case _ => Failure(WrongKind(name))
  }

  /** Why binding a payload to a request DTO throws. */
  datatype BindError =
    | NotDeserializable  // JsonSerializer.Deserialize into a class throws for anything but an object or null
    | NullDereference    // null deserializes to a null DTO; reading a property through `req!` then throws

  /**
   * JsonSerializer.Deserialize of a payload into a DTO class, followed, when `dereferenced`,
   * by reading its properties. An object always binds: members are matched to properties
   * by name and the others ignored.
   */
  function BindRequest(payload: Value, dereferenced: bool): (r: Option<BindError>)
    ensures payload.Object? ==> r.None?
    ensures payload.Null? ==> (r.Some? <==> dereferenced) && (r.Some? ==> r.value == NullDereference)
    ensures !payload.Object? && !payload.Null? ==> r == Some(NotDeserializable)
  {
    if payload.Object? then None
    else if payload.Null? then (if dereferenced then Some(NullDereference) else None)
    else Some(NotDeserializable)
  }
}
