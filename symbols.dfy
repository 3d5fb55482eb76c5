/**
 * What the two source generators read from Roslyn's symbols, and the helpers they share
 * (the two generator files carry textually identical copies of these): return-kind
 * classification, name casing, method signatures, DTO names and shapes, and the selection
 * of the classes that carry the RpcInterface attribute.
 */
module Symbols {
  import opened Wrappers

  // ---------------------------------------------------------------- symbols

  /** The parts of an ITypeSymbol the generators look at. */
  datatype TypeSymbol =
    | VoidType
      // SpecialType.System_Void
    | NamedType(name: string, constructedFrom: string, typeArgs: seq<string>, display: string)
      // INamedTypeSymbol: Name, ConstructedFrom's fully qualified display, the displays of
      // TypeArguments (IsGenericType holds exactly when there is one) and its own display
    | OtherType(display: string)
      // arrays, pointers, type parameters: not INamedTypeSymbol

  /** ToDisplayString(SymbolDisplayFormat.FullyQualifiedFormat). */
  function Display(t: TypeSymbol): string {
    match t
    case VoidType => "void"
    case NamedType(_, _, _, d) => d
    case OtherType(d) => d
  }

  datatype ParameterSymbol = ParameterSymbol(name: string, typ: TypeSymbol)

  datatype MethodKind = Ordinary | PropertyGet | PropertySet | EventAdd | EventRemove | OtherMethodKind

  datatype MethodSymbol = MethodSymbol(name: string, kind: MethodKind, parameters: seq<ParameterSymbol>, returnType: TypeSymbol)

  /** A member of a type: a method, or anything else (property, event, nested type). */
  datatype MemberSymbol = MethodMember(sym: MethodSymbol) | OtherMember(name: string)

  /** A named type given to the attribute with typeof(...), normally an interface. */
  datatype NamedTypeSymbol = NamedTypeSymbol(name: string, members: seq<MemberSymbol>)

  /** MethodsOf: the ordinary methods among the members, in declaration order (MethodsOfAppend). */
  function MethodsOf(members: seq<MemberSymbol>): (r: seq<MethodSymbol>)
    ensures |r| <= |members|
    ensures forall k :: 0 <= k < |r| ==> r[k].kind == Ordinary && MethodMember(r[k]) in members
    ensures forall k :: 0 <= k < |members| && members[k].MethodMember? && members[k].sym.kind == Ordinary
                        ==> members[k].sym in r
    decreases |members|
  {
    if |members| == 0 then []
    else
      var rest := MethodsOf(members[1..]);
      if members[0].MethodMember? && members[0].sym.kind == Ordinary then [members[0].sym] + rest else rest
  }

  /** MethodsOf keeps declaration order: the methods of a concatenation are those of each part, in turn. */
  lemma {:induction false} MethodsOfAppend(xs: seq<MemberSymbol>, ys: seq<MemberSymbol>)
    ensures MethodsOf(xs + ys) == MethodsOf(xs) + MethodsOf(ys)
    decreases |xs|
  {
    if |xs| == 0 {
      assert xs + ys == ys;
    } else {
      assert (xs + ys)[0] == xs[0] && (xs + ys)[1..] == xs[1..] + ys;
      MethodsOfAppend(xs[1..], ys);
    }
  }

  // ---------------------------------------------------------------- return kinds

  datatype ReturnKind = Void | Task | TaskOfT | Other

  const TaskTypeName: string := "global::System.Threading.Tasks.Task"

  /** Task or Task<T>, recognised by the fully qualified name of the definition or by the simple name "Task". */
  predicate IsTaskType(t: TypeSymbol) {
    t.NamedType? && (t.constructedFrom == TaskTypeName || t.name == "Task")
  }

  /**
   * GetReturnKind: void, Task and Task<T> (generic) are recognised; everything else is Other.
   * A Task<T> always has a type argument, so the generators' `TypeArguments[0]` is defined.
   */
  function GetReturnKind(t: TypeSymbol): (k: ReturnKind)
    ensures k == Void <==> t.VoidType?
    ensures k == Task <==> IsTaskType(t) && |t.typeArgs| == 0
    ensures k == TaskOfT <==> IsTaskType(t) && |t.typeArgs| > 0
    ensures k == Other <==> t.OtherType? || (t.NamedType? && !IsTaskType(t))
  {
    match t
    case VoidType => Void
    case NamedType(name, cf, args, _) =>
      if cf == TaskTypeName || name == "Task" then (if |args| > 0 then TaskOfT else Task) else Other
    case OtherType(_) => Other
  }

  // ---------------------------------------------------------------- names

  /** char.ToUpperInvariant on the ASCII letters; every other character is left as it is. */
  function ToUpperInvariant(c: char): (u: char)
    ensures 'a' <= c <= 'z' ==> u as int == c as int - 32
    ensures !('a' <= c <= 'z') ==> u == c
  {
    if 'a' <= c <= 'z' then (c as int - 32) as char else c
  }

  /** UpperFirst: the empty string unchanged, otherwise only the first character upper-cased. */
  function UpperFirst(s: string): (r: string)
    ensures |r| == |s|
    ensures s == [] ==> r == []
    ensures s != [] ==> r[0] == ToUpperInvariant(s[0]) && r[1..] == s[1..]
  {
    if s == [] then s else [ToUpperInvariant(s[0])] + s[1..]
  }

  /** Upper-casing the first character twice is the same as doing it once. */
  lemma {:induction false} UpperFirstIdempotent(s: string)
    ensures UpperFirst(UpperFirst(s)) == UpperFirst(s)
  {
    if s != [] {
      var u := UpperFirst(s);
      assert ToUpperInvariant(u[0]) == u[0];
      assert UpperFirst(u) == [u[0]] + u[1..] == u;
    }
  }

  /** string.Join. */
  function Join(sep: string, xs: seq<string>): (r: string)
    ensures |xs| == 0 ==> r == ""
    ensures |xs| == 1 ==> r == xs[0]
    decreases |xs|
  {
    if |xs| == 0 then "" else if |xs| == 1 then xs[0] else xs[0] + sep + Join(sep, xs[1..])
  }

  /** Joining one more item appends the separator and the item. */
  lemma {:induction false} JoinSnoc(sep: string, xs: seq<string>, x: string)
    requires |xs| > 0
    ensures Join(sep, xs + [x]) == Join(sep, xs) + sep + x
    decreases |xs|
  {
    if |xs| == 1 {
      assert xs + [x] == [xs[0], x];
      assert [xs[0], x][1..] == [x];
    } else {
      assert (xs + [x])[1..] == xs[1..] + [x];
      JoinSnoc(sep, xs[1..], x);
    }
  }

  // ---------------------------------------------------------------- signatures

  /** `isPublic` wins over `isProtected`; neither gives "private". */
  function Visibility(isPublic: bool, isProtected: bool): string {
    if isPublic then "public" else if isProtected then "protected" else "private"
  }

  /** The modifiers: visibility, then " abstract", then " async". */
  function ModifierText(isPublic: bool, isAbstract: bool, isProtected: bool, isAsync: bool): string {
    Visibility(isPublic, isProtected) + (if isAbstract then " abstract" else "") + (if isAsync then " async" else "")
  }

  /** "type name" for one parameter. */
  function ParameterText(p: ParameterSymbol): string {
    Display(p.typ) + " " + p.name
  }

  function ParameterTexts(ps: seq<ParameterSymbol>): (r: seq<string>)
    ensures |r| == |ps| && forall k :: 0 <= k < |ps| ==> r[k] == ParameterText(ps[k])
  {
    seq(|ps|, k requires 0 <= k < |ps| => ParameterText(ps[k]))
  }

  /** Everything after the modifiers and their space: "<ret> <name>(<params>)". */
  function SignatureTail(m: MethodSymbol): string {
    Display(m.returnType) + " " + m.name + "(" + Join(", ", ParameterTexts(m.parameters)) + ")"
  }

  /** BuildMethodSignature: "<mods> <ret> <name>(<type name, ...>)". */
  function BuildMethodSignature(m: MethodSymbol, isPublic: bool, isAbstract: bool, isProtected: bool, isAsync: bool): string {
    ModifierText(isPublic, isAbstract, isProtected, isAsync) + " " + SignatureTail(m)
  }

  predicate StartsWith(s: string, prefix: string) {
    |prefix| <= |s| && s[..|prefix|] == prefix
  }

  /** The modifiers a signature starts with. */
  datatype Modifiers = Modifiers(visibility: string, isAbstract: bool, isAsync: bool)

  /** Reads the visibility word and its space off the front of a signature. */
  function ReadVisibility(sig: string): Option<(string, string)> {
    if StartsWith(sig, "public ") then Some(("public", sig[7..]))
    else if StartsWith(sig, "protected ") then Some(("protected", sig[10..]))
    else if StartsWith(sig, "private ") then Some(("private", sig[8..]))
    else None
  }

  /** Reads an optional modifier word and its space off the front of a string. */
  function ReadFlag(word: string, s: string): (bool, string) {
    if StartsWith(s, word) then (true, s[|word|..]) else (false, s)
  }

  /** Reads the leading modifier words of a signature back, and returns the rest of it. */
  function ReadModifiers(sig: string): Option<(Modifiers, string)> {
    var (vis, r0) :- ReadVisibility(sig);
    var (abs, r1) := ReadFlag("abstract ", r0);
    var (asy, r2) := ReadFlag("async ", r1);
    Some((Modifiers(vis, abs, asy), r2))
  }

  lemma StartsWithConcat(p: string, s: string)
    ensures StartsWith(p + s, p) && (p + s)[|p|..] == s
  {
    assert (p + s)[..|p|] == p;
  }

  lemma ReadVisibilityOf(isPublic: bool, isProtected: bool, rest: string)
    ensures ReadVisibility(Visibility(isPublic, isProtected) + " " + rest) == Some((Visibility(isPublic, isProtected), rest))
  {
    var vis := Visibility(isPublic, isProtected);
    var sig := vis + " " + rest;
    assert sig == (vis + " ") + rest;
    StartsWithConcat(vis + " ", rest);
    if !isPublic {
      assert sig[1] == 'r';
      assert !StartsWith(sig, "public ") by { assert "public "[1] == 'u'; }
      if !isProtected {
        assert sig[2] == 'i';
        assert !StartsWith(sig, "protected ") by { assert "protected "[2] == 'o'; }
      }
    }
  }

  lemma ReadFlagOf(word: string, rest: string)
    ensures ReadFlag(word, word + rest) == (true, rest)
  {
    StartsWithConcat(word, rest);
  }

  /** " abstract" and " async" followed by a space are a space followed by "abstract " and "async ". */
  lemma ModifierSpacing(isAbstract: bool, isAsync: bool)
    ensures (if isAbstract then " abstract" else "") + (if isAsync then " async" else "") + " "
         == " " + ((if isAbstract then "abstract " else "") + (if isAsync then "async " else ""))
  {
    if isAbstract && isAsync {
      assert " abstract" + " async" + " " == " abstract async " == " " + ("abstract " + "async ");
    } else if isAbstract {
      assert " abstract" + "" + " " == " abstract " == " " + ("abstract " + "");
    } else if isAsync {
      assert "" + " async" + " " == " async " == " " + ("" + "async ");
    } else {
      assert "" + "" + " " == " " == " " + ("" + "");
    }
  }

  /** The signature as visibility, space, the optional "abstract " and "async " words, and the tail. */
  lemma SignatureShape(m: MethodSymbol, isPublic: bool, isAbstract: bool, isProtected: bool, isAsync: bool)
    ensures BuildMethodSignature(m, isPublic, isAbstract, isProtected, isAsync)
         == Visibility(isPublic, isProtected) + " "
            + ((if isAbstract then "abstract " else "") + ((if isAsync then "async " else "") + SignatureTail(m)))
  {
    ModifierSpacing(isAbstract, isAsync);
    Regroup(Visibility(isPublic, isProtected), if isAbstract then " abstract" else "", if isAsync then " async" else "",
            if isAbstract then "abstract " else "", if isAsync then "async " else "", SignatureTail(m));
  }

  /** Moving the space in front of the modifier words, over arbitrary strings. */
  lemma Regroup(vis: string, x: string, y: string, a: string, b: string, tail: string)
    requires x + y + " " == " " + (a + b)
    ensures vis + x + y + " " + tail == vis + " " + (a + (b + tail))
  {
    calc {
      vis + x + y + " " + tail;
      vis + (x + y + " ") + tail;
      vis + (" " + (a + b)) + tail;
      vis + " " + (a + (b + tail));
    }
  }


  /**
   * The signature's modifiers can be read back: the visibility chosen by the two flags and
   * the abstract and async flags, in that order, followed by the return type, name and
   * parameters, provided the return type does not itself start with a modifier word.
   */
  lemma {:induction false} ReadModifiersOfSignature(m: MethodSymbol, isPublic: bool, isAbstract: bool, isProtected: bool, isAsync: bool)
    requires !StartsWith(SignatureTail(m), "abstract ") && !StartsWith(SignatureTail(m), "async ")
    ensures ReadModifiers(BuildMethodSignature(m, isPublic, isAbstract, isProtected, isAsync))
         == Some((Modifiers(Visibility(isPublic, isProtected), isAbstract, isAsync), SignatureTail(m)))
  {
    SignatureShape(m, isPublic, isAbstract, isProtected, isAsync);
    ReadModifiersOf(isPublic, isAbstract, isProtected, isAsync, SignatureTail(m));
  }

  /** ReadModifiers over the signature's shape, for any tail that does not start with a modifier word. */
  lemma ReadModifiersOf(isPublic: bool, isAbstract: bool, isProtected: bool, isAsync: bool, tail: string)
    requires !StartsWith(tail, "abstract ") && !StartsWith(tail, "async ")
    ensures ReadModifiers(Visibility(isPublic, isProtected) + " "
                          + ((if isAbstract then "abstract " else "") + ((if isAsync then "async " else "") + tail)))
         == Some((Modifiers(Visibility(isPublic, isProtected), isAbstract, isAsync), tail))
  {
    var a := if isAbstract then "abstract " else "";
    var b := if isAsync then "async " else "";
    var r1 := b + tail;
    var r0 := a + r1;
    ReadVisibilityOf(isPublic, isProtected, r0);
    if isAbstract {
      ReadFlagOf("abstract ", r1);
    } else if isAsync {
      assert !StartsWith(r1, "abstract ") by {
        assert r1[1] == 's';
        assert "abstract "[1] == 'b';
      }
    }
    if isAsync {
      ReadFlagOf("async ", tail);
    } else {
      assert r1 == tail;
    }
    if !isAbstract {
      assert r0 == r1;
    }
  }


  // ---------------------------------------------------------------- DTOs

  /** "{class}__{iface}__{method}__Request" */
  function RequestDtoName(className: string, iface: string, methodName: string): string {
    className + "__" + iface + "__" + methodName + "__Request"
  }

  /** "{class}__{iface}__{method}__Response" */
  function ResponseDtoName(className: string, iface: string, methodName: string): string {
    className + "__" + iface + "__" + methodName + "__Response"
  }

  /** A request DTO name is never a response DTO name. */
  lemma {:induction false} RequestResponseNamesDiffer(c: string, i: string, m: string, c': string, i': string, m': string)
    ensures RequestDtoName(c, i, m) != ResponseDtoName(c', i', m')
  {
    var req := RequestDtoName(c, i, m);
    var resp := ResponseDtoName(c', i', m');
    assert req[|req| - 1] == 't';
    assert resp[|resp| - 1] == 'e';
  }

  /** Within one class and interface, distinct methods get distinct DTO names. */
  lemma {:induction false} DtoNamesInjective(c: string, i: string, m: string, m': string)
    ensures RequestDtoName(c, i, m) == RequestDtoName(c, i, m') ==> m == m'
    ensures ResponseDtoName(c, i, m) == ResponseDtoName(c, i, m') ==> m == m'
  {
    var pre := c + "__" + i + "__";
    CancelAffixes(pre, m, m', "__Request");
    CancelAffixes(pre, m, m', "__Response");
  }

  lemma CancelAffixes(pre: string, x: string, y: string, post: string)
    ensures pre + x + post == pre + y + post ==> x == y
  {
    if pre + x + post == pre + y + post {
      assert |x| == |y|;
      assert x == (pre + x + post)[|pre|..|pre| + |x|];
      assert y == (pre + y + post)[|pre|..|pre| + |y|];
    }
  }

  datatype DtoProperty = DtoProperty(typeName: string, name: string)

  /** An emitted `internal sealed class` with `{ get; set; }` properties. */
  datatype Dto = Dto(name: string, properties: seq<DtoProperty>)

  /** The request DTO: one property per parameter, the parameter name upper-cased first. */
  function RequestDto(className: string, iface: string, m: MethodSymbol): (d: Dto)
    ensures d.name == RequestDtoName(className, iface, m.name)
    ensures |d.properties| == |m.parameters|
    ensures forall k :: 0 <= k < |m.parameters| ==>
              d.properties[k] == DtoProperty(Display(m.parameters[k].typ), UpperFirst(m.parameters[k].name))
  {
    Dto(RequestDtoName(className, iface, m.name),
        seq(|m.parameters|, k requires 0 <= k < |m.parameters| =>
              DtoProperty(Display(m.parameters[k].typ), UpperFirst(m.parameters[k].name))))
  }

  /** The response DTO, emitted only for Task<T>: a single property `Result` of type T. */
  function ResponseDto(className: string, iface: string, m: MethodSymbol): (d: Option<Dto>)
    ensures d.Some? <==> GetReturnKind(m.returnType) == TaskOfT
    ensures d.Some? ==> d.value == Dto(ResponseDtoName(className, iface, m.name),
                                       [DtoProperty(m.returnType.typeArgs[0], "Result")])
  {
    if GetReturnKind(m.returnType) == TaskOfT
    then Some(Dto(ResponseDtoName(className, iface, m.name), [DtoProperty(m.returnType.typeArgs[0], "Result")]))
    else None
  }

  /** RequestDto then, for Task<T>, ResponseDto: the DTOs emitted for one method. */
  function DtosFor(className: string, iface: string, m: MethodSymbol): seq<Dto> {
    [RequestDto(className, iface, m)] + (match ResponseDto(className, iface, m) case Some(d) => [d] case None => [])
  }

  /**
   * The DTOs emitted for a list of methods, method by method: the request DTO and then,
   * for Task<T>, the response DTO.
   */
  function AllDtos(className: string, iface: string, ms: seq<MethodSymbol>): seq<Dto>
    decreases |ms|
  {
    if |ms| == 0 then [] else AllDtos(className, iface, ms[..|ms| - 1]) + DtosFor(className, iface, ms[|ms| - 1])
  }

  /** Every method's request DTO, and its response DTO when it has one, is among the emitted DTOs. */
  lemma {:induction false} AllDtosContains(className: string, iface: string, ms: seq<MethodSymbol>, k: int)
    requires 0 <= k < |ms|
    ensures RequestDto(className, iface, ms[k]) in AllDtos(className, iface, ms)
    ensures ResponseDto(className, iface, ms[k]).Some? ==> ResponseDto(className, iface, ms[k]).value in AllDtos(className, iface, ms)
    decreases |ms|
  {
    var init := ms[..|ms| - 1];
    var last := DtosFor(className, iface, ms[|ms| - 1]);
    assert AllDtos(className, iface, ms) == AllDtos(className, iface, init) + last;
    if k == |ms| - 1 {
      assert last[0] == RequestDto(className, iface, ms[k]);
      if ResponseDto(className, iface, ms[k]).Some? {
        assert last[1] == ResponseDto(className, iface, ms[k]).value;
      }
    } else {
      assert init[k] == ms[k];
      AllDtosContains(className, iface, init, k);
    }
  }

  /** The signature of an outbound stub: public, and async exactly for Task and Task<T>. */
  function StubSignature(m: MethodSymbol): string {
    var kind := GetReturnKind(m.returnType);
    BuildMethodSignature(m, true, false, false, kind == Task || kind == TaskOfT)
  }

  /** The signature of an inbound handler: protected abstract, never async. */
  function HandlerSignature(m: MethodSymbol): string {
    BuildMethodSignature(m, false, true, true, false)
  }

  /** `namespace <ns>;` for a class outside the global namespace, unless its name is empty. */
  function NamespaceLine(ns: Option<string>): (r: Option<string>)
    ensures r.Some? <==> ns.Some? && ns.value != ""
    ensures r.Some? ==> r.value == "namespace " + ns.value + ";"
  {
    match ns
    case Some(n) => if n == "" then None else Some("namespace " + n + ";")
    case None => None
  }

  /** The handler's arguments, `req!.<UpperFirst(name)>`. */
  function ArgumentList(ps: seq<ParameterSymbol>): (r: seq<string>)
    ensures |r| == |ps| && forall k :: 0 <= k < |ps| ==> r[k] == "req!." + UpperFirst(ps[k].name)
  {
    seq(|ps|, k requires 0 <= k < |ps| => "req!." + UpperFirst(ps[k].name))
  }

  /** The stub's payload initialisers, `<UpperFirst(name)> = <name>`. */
  function PayloadInits(ps: seq<ParameterSymbol>): (r: seq<string>)
    ensures |r| == |ps| && forall k :: 0 <= k < |ps| ==> r[k] == UpperFirst(ps[k].name) + " = " + ps[k].name
  {
    seq(|ps|, k requires 0 <= k < |ps| => UpperFirst(ps[k].name) + " = " + ps[k].name)
  }

  // ---------------------------------------------------------------- candidate classes

  /** A constructor argument of the attribute: typeof(a named type), or anything else. */
  datatype TypedConstant = TypeOfNamed(namedType: NamedTypeSymbol) | OtherConstant

  /** An attribute application: the short Name of its AttributeClass (None if unresolved) and its constructor arguments. */
  datatype AttributeData = AttributeData(attributeClass: Option<string>, constructorArguments: seq<TypedConstant>)

  /** A class symbol; two values are the same symbol exactly when they are equal. */
  datatype ClassSymbol = ClassSymbol(name: string, namespace: Option<string>, attributes: seq<AttributeData>)

  /** One class declaration in the syntax tree: how many attribute lists it has, and its symbol if the model resolves it. */
  datatype ClassDeclaration = ClassDeclaration(attributeListCount: nat, symbol: Option<ClassSymbol>)

  datatype Candidate = Candidate(classSymbol: ClassSymbol, attribute: AttributeData)

  predicate IsRpcAttribute(ad: AttributeData) {
    ad.attributeClass.Some? && (ad.attributeClass.value == "RpcInterfaceAttribute" || ad.attributeClass.value == "RpcInterface")
  }

  /** The first attribute whose short name is RpcInterfaceAttribute or RpcInterface. */
  function FindRpcAttribute(attrs: seq<AttributeData>): (r: Option<nat>)
    ensures r.None? <==> forall k :: 0 <= k < |attrs| ==> !IsRpcAttribute(attrs[k])
    ensures r.Some? ==> r.value < |attrs| && IsRpcAttribute(attrs[r.value])
                        && forall k :: 0 <= k < r.value ==> !IsRpcAttribute(attrs[k])
    decreases |attrs|
  {
    if |attrs| == 0 then None
    else if IsRpcAttribute(attrs[0]) then Some(0)
    else match FindRpcAttribute(attrs[1..])
      case None => None
      case Some(k) => Some(k + 1)
  }

  /** The syntax filter and semantic transform: a candidate for a class with attribute lists and an RPC attribute. */
  function Transform(decl: ClassDeclaration): (r: Option<Candidate>)
    ensures r.Some? <==> decl.attributeListCount > 0 && decl.symbol.Some? && FindRpcAttribute(decl.symbol.value.attributes).Some?
    ensures r.Some? ==> r.value.classSymbol == decl.symbol.value
                        && r.value.attribute == decl.symbol.value.attributes[FindRpcAttribute(decl.symbol.value.attributes).value]
  {
    if decl.attributeListCount == 0 then None
    else match decl.symbol
      case None => None
      case Some(cls) =>
        match FindRpcAttribute(cls.attributes)
        case None => None
        case Some(k) => Some(Candidate(cls, cls.attributes[k]))
  }

  /** `.Where(c => c is not null)` after the transform, in declaration order (CollectAppend). */
  function Collect(decls: seq<ClassDeclaration>): (r: seq<Candidate>)
    ensures forall c :: c in r <==> exists k :: 0 <= k < |decls| && Transform(decls[k]) == Some(c)
    decreases |decls|
  {
    if |decls| == 0 then []
    else
      var rest := Collect(decls[1..]);
      assert forall k :: 1 <= k < |decls| ==> decls[k] == decls[1..][k - 1];
      match Transform(decls[0])
      case Some(c) => [c] + rest
      case None => rest
  }

  /** Collect keeps the order of the declarations: those of a concatenation are those of each part, in turn. */
  lemma {:induction false} CollectAppend(xs: seq<ClassDeclaration>, ys: seq<ClassDeclaration>)
    ensures Collect(xs + ys) == Collect(xs) + Collect(ys)
    decreases |xs|
  {
    if |xs| == 0 {
      assert xs + ys == ys;
    } else {
      assert (xs + ys)[0] == xs[0] && (xs + ys)[1..] == xs[1..] + ys;
      CollectAppend(xs[1..], ys);
    }
  }

  /**
   * `Distinct` with a comparer on the class symbol: the first candidate of each class, in order;
   * `seen` holds the classes already produced.
   */
  function DistinctFrom(cs: seq<Candidate>, seen: set<ClassSymbol>): seq<Candidate>
    decreases |cs|
  {
    if |cs| == 0 then []
    else if cs[0].classSymbol in seen then DistinctFrom(cs[1..], seen)
    else [cs[0]] + DistinctFrom(cs[1..], seen + {cs[0].classSymbol})
  }

  /** `cs[j]` is the first candidate of `cs` for its class. */
  predicate FirstOfClass(cs: seq<Candidate>, j: int) {
    0 <= j < |cs| && forall i :: 0 <= i < j ==> cs[i].classSymbol != cs[j].classSymbol
  }

  ghost predicate NoneSeen(r: seq<Candidate>, seen: set<ClassSymbol>) {
    forall k :: 0 <= k < |r| ==> r[k].classSymbol !in seen
  }

  ghost predicate NoClassTwice(r: seq<Candidate>) {
    forall i, j :: 0 <= i < j < |r| ==> r[i].classSymbol != r[j].classSymbol
  }

  ghost predicate HasClass(r: seq<Candidate>, cls: ClassSymbol) {
    exists k :: 0 <= k < |r| && r[k].classSymbol == cls
  }

  ghost predicate CoversUnseen(cs: seq<Candidate>, seen: set<ClassSymbol>, r: seq<Candidate>) {
    forall c :: c in cs && c.classSymbol !in seen ==> HasClass(r, c.classSymbol)
  }

  ghost predicate KeepsFirst(cs: seq<Candidate>, r: seq<Candidate>) {
    forall k :: 0 <= k < |r| ==> exists j :: FirstOfClass(cs, j) && cs[j] == r[k]
  }

  /** Distinct produces only classes not yet seen, and none of them twice. */
  lemma {:induction false} DistinctFromFresh(cs: seq<Candidate>, seen: set<ClassSymbol>)
    ensures NoneSeen(DistinctFrom(cs, seen), seen)
    ensures NoClassTwice(DistinctFrom(cs, seen))
    decreases |cs|
  {
    if |cs| > 0 {
      var r := DistinctFrom(cs, seen);
      if cs[0].classSymbol in seen {
        assert r == DistinctFrom(cs[1..], seen);
        DistinctFromFresh(cs[1..], seen);
      } else {
        var seen' := seen + {cs[0].classSymbol};
        DistinctFromFresh(cs[1..], seen');
        var rest := DistinctFrom(cs[1..], seen');
        assert r == [cs[0]] + rest;
        assert forall k :: 1 <= k < |r| ==> r[k] == rest[k - 1];
        assert NoneSeen(rest, seen');
      }
    }
  }

  /** Distinct keeps every class of `cs` that was not yet seen. */
  lemma {:induction false} DistinctFromCovers(cs: seq<Candidate>, seen: set<ClassSymbol>)
    ensures CoversUnseen(cs, seen, DistinctFrom(cs, seen))
    decreases |cs|
  {
    if |cs| > 0 {
      var r := DistinctFrom(cs, seen);
      var tail := cs[1..];
      assert forall c :: c in cs ==> c == cs[0] || c in tail;
      if cs[0].classSymbol in seen {
        assert r == DistinctFrom(tail, seen);
        DistinctFromCovers(tail, seen);
      } else {
        var seen' := seen + {cs[0].classSymbol};
        var rest := DistinctFrom(tail, seen');
        DistinctFromCovers(tail, seen');
        assert r == [cs[0]] + rest;
        forall c | c in cs && c.classSymbol !in seen ensures HasClass(r, c.classSymbol) {
          if c.classSymbol == cs[0].classSymbol {
            assert r[0].classSymbol == c.classSymbol;
          } else {
            assert HasClass(rest, c.classSymbol);
            var k :| 0 <= k < |rest| && rest[k].classSymbol == c.classSymbol;
            assert r[k + 1] == rest[k];
          }
        }
      }
    }
  }

  /** A first-of-class position in the tail is one in the whole, when the head's class differs. */
  lemma FirstOfClassShift(cs: seq<Candidate>, j: int)
    requires |cs| > 0 && FirstOfClass(cs[1..], j) && cs[0].classSymbol != cs[1..][j].classSymbol
    ensures FirstOfClass(cs, j + 1) && cs[j + 1] == cs[1..][j]
  {
    forall i | 0 <= i < j + 1 ensures cs[i].classSymbol != cs[j + 1].classSymbol {
      if i > 0 { assert cs[i] == cs[1..][i - 1]; }
    }
  }

  /** Each candidate Distinct keeps is the first one of its class in `cs`. */
  lemma {:induction false} DistinctFromFirst(cs: seq<Candidate>, seen: set<ClassSymbol>)
    ensures KeepsFirst(cs, DistinctFrom(cs, seen))
    decreases |cs|
  {
    if |cs| > 0 {
      var r := DistinctFrom(cs, seen);
      var tail := cs[1..];
      if cs[0].classSymbol in seen {
        assert r == DistinctFrom(tail, seen);
        DistinctFromFresh(tail, seen);
        DistinctFromFirst(tail, seen);
        forall k | 0 <= k < |r| ensures exists j :: FirstOfClass(cs, j) && cs[j] == r[k] {
          var j :| FirstOfClass(tail, j) && tail[j] == r[k];
          assert r[k].classSymbol !in seen;
          FirstOfClassShift(cs, j);
        }
      } else {
        var seen' := seen + {cs[0].classSymbol};
        var rest := DistinctFrom(tail, seen');
        DistinctFromFresh(tail, seen');
        DistinctFromFirst(tail, seen');
        assert r == [cs[0]] + rest;
        forall k | 0 <= k < |r| ensures exists j :: FirstOfClass(cs, j) && cs[j] == r[k] {
          if k == 0 {
            assert FirstOfClass(cs, 0);
          } else {
            assert r[k] == rest[k - 1];
            var j :| FirstOfClass(tail, j) && tail[j] == rest[k - 1];
            assert rest[k - 1].classSymbol !in seen';
            FirstOfClassShift(cs, j);
          }
        }
      }
    }
  }

  /** The classes generated for: each class with an RPC attribute once, with its first candidate. */
  function SelectCandidates(decls: seq<ClassDeclaration>): seq<Candidate> {
    DistinctFrom(Collect(decls), {})
  }

  /**
   * A class is generated for exactly when one of its declarations yields a candidate, never
   * twice, and with the candidate of the first such declaration.
   */
  lemma {:induction false} SelectCandidatesOncePerClass(decls: seq<ClassDeclaration>, cls: ClassSymbol)
    ensures (exists k :: 0 <= k < |SelectCandidates(decls)| && SelectCandidates(decls)[k].classSymbol == cls)
        <==> (exists j :: 0 <= j < |decls| && Transform(decls[j]).Some? && Transform(decls[j]).value.classSymbol == cls)
    ensures NoClassTwice(SelectCandidates(decls))
    ensures KeepsFirst(Collect(decls), SelectCandidates(decls))
  {
    var cs := Collect(decls);
    var r := SelectCandidates(decls);
    DistinctFromFresh(cs, {});
    DistinctFromCovers(cs, {});
    DistinctFromFirst(cs, {});
    if HasClass(r, cls) {
      var k :| 0 <= k < |r| && r[k].classSymbol == cls;
      var j :| FirstOfClass(cs, j) && cs[j] == r[k];
      assert cs[j] in cs;
    }
    if exists j :: 0 <= j < |decls| && Transform(decls[j]).Some? && Transform(decls[j]).value.classSymbol == cls {
      var j :| 0 <= j < |decls| && Transform(decls[j]).Some? && Transform(decls[j]).value.classSymbol == cls;
      assert Transform(decls[j]).value in cs;
    }
  }

  /**
   * The guard of GenerateForClass: exactly two constructor arguments, both named types;
   * the first is the outbound interface and the second the inbound one.
   */
  function InterfacePair(ad: AttributeData): (r: Option<(NamedTypeSymbol, NamedTypeSymbol)>)
    ensures r.Some? <==> |ad.constructorArguments| == 2 && ad.constructorArguments[0].TypeOfNamed? && ad.constructorArguments[1].TypeOfNamed?
    ensures r.Some? ==> r.value == (ad.constructorArguments[0].namedType, ad.constructorArguments[1].namedType)
  {
    if |ad.constructorArguments| != 2 then None
    else match (ad.constructorArguments[0], ad.constructorArguments[1])
      case (TypeOfNamed(o), TypeOfNamed(i)) => Some((o, i))
      case _ => None
  }
}
