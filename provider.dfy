/** The registration-time argument binder of aiobp/aiohttp/provider.py.

    A handler's signature is a list of parameter records; each record carries the
    annotation shape Python's typing module would report for it. At registration the
    binder classifies every annotation, binds each parameter either to an injector
    factory or to a path -> query -> default getter, and reports all malformed
    parameters together. At request time it runs every binding in declaration order
    and collects the coercion failures. */
module Provider {
  import opened Builtins

  // ---------------------------------------------------------------------------
  // Types, annotations and Python exceptions

  /** Identity of a Python class used as an annotation's base type or an injector key. */
  datatype TypeId = IntType | StrType | RequestType | ClassType(qualname: string)

  /** One metadata object attached by Annotated[...]: a msgspec.Meta instance or anything
      else, told apart by object identity. */
  datatype Metadata = Meta(id: nat) | Foreign(id: nat)

  /** An annotation as typing.get_origin/get_args see it.
      Annotated[T, m1, ..., mk] is Annotated(T, [m1, ..., mk]);
      Optional[X] is Union([X, NoneType]); a Union keeps its members in order. */
  datatype Hint =
    | NoneType
    | Bare(t: TypeId)
    | Annotated(base: TypeId, metadata: seq<Metadata>)
    | Union(members: seq<Hint>)

  /** What get_annotatation returns: the unwrapped type, whether Optional was peeled
      off, and the msgspec.Meta object. */
  datatype Annotation = Annotation(typ: TypeId, optional: bool, meta: Metadata)

  /** The exceptions the core raises, each with the Python class it belongs to. */
  datatype Exception =
    | AnnotationError                                  // bare `raise TypeError` in get_annotatation
    | UnpackError(got: nat)                            // ValueError of `a, b = get_args(...)`
    | SignatureError(messages: seq<string>)            // TypeError(errors) at the end of __inspect
    | MissingValue(name: string)                       // TypeError("Missing required value <name>")
    | CoercionError(message: string)                   // ValueError raised by typ(value)
    | ValidationError(failures: seq<(string, string)>) // TypeError(errors) at the end of gather_args
  {
    predicate IsTypeError() {
      AnnotationError? || SignatureError? || MissingValue? || ValidationError?
    }

    predicate IsValueError() {
      UnpackError? || CoercionError?
    }

    /** str(error) for a ValueError. */
    function Message(): string
      requires IsValueError()
    {
      match this
      case UnpackError(got) =>
        if got > 2 then "too many values to unpack (expected 2)"
        else "not enough values to unpack (expected 2, got " + NatToString(got) + ")"
      case CoercionError(message) => message
    }
  }

  /** A Python call either returns a value or raises. */
  datatype Outcome<+T> = Returned(value: T) | Raised(exc: Exception)

  // ---------------------------------------------------------------------------
  // Classifying one annotation (get_annotatation)

  /** The one annotation that classifies as `a`: Annotated[T, meta], wrapped in Optional
      when `a.optional`. */
  function HintOf(a: Annotation): Hint {
    var annotated := Annotated(a.typ, [a.meta]);
    if a.optional then Union([annotated, NoneType]) else annotated
  }

  function AnnotatedParts(hint: Hint, optional: bool): (r: Outcome<Annotation>)
    ensures r.Returned? ==> && hint == Annotated(r.value.typ, [r.value.meta])
                            && r.value.optional == optional && r.value.meta.Meta?
  {
    match hint
    case Annotated(t, metadata) =>
      if |metadata| != 1 then Raised(UnpackError(|metadata| + 1))
      else if !metadata[0].Meta? then Raised(AnnotationError)
      else
        assert metadata == [metadata[0]];
        Returned(Annotation(t, optional, metadata[0]))
    case _ => Raised(AnnotationError)
  }

  /** Provider.get_annotatation */
  function GetAnnotation(hint: Hint): (r: Outcome<Annotation>)
    ensures r.Returned? ==> r.value.meta.Meta? && hint == HintOf(r.value)
    ensures r.Raised? ==> r.exc == AnnotationError || r.exc.UnpackError?
  {
    match hint
    case Union(members) =>
      if |members| != 2 then Raised(UnpackError(|members|))
      else if !members[1].NoneType? then Raised(AnnotationError)
      else
        assert members == [members[0], members[1]];
        AnnotatedParts(members[0], true)
    case _ => AnnotatedParts(hint, false)
  }

  /** Every Annotated[T, Meta] and Optional[Annotated[T, Meta]] is accepted as itself;
      with the postcondition of GetAnnotation this makes HintOf its exact inverse. */
  lemma GetAnnotationOfHintOf(a: Annotation)
    requires a.meta.Meta?
    ensures GetAnnotation(HintOf(a)) == Returned(a)
  {
  }

  /** The shapes that are rejected, and with which exception. */
  lemma GetAnnotationRejects(t: TypeId, m: Metadata, ms: seq<Metadata>, x: Hint, members: seq<Hint>)
    ensures GetAnnotation(Bare(t)) == Raised(AnnotationError)
    ensures GetAnnotation(NoneType) == Raised(AnnotationError)
    ensures !x.NoneType? ==> GetAnnotation(Union([Annotated(t, [m]), x])) == Raised(AnnotationError)
    ensures m.Foreign? ==> GetAnnotation(Annotated(t, [m])) == Raised(AnnotationError)
    ensures m.Foreign? ==> GetAnnotation(Union([Annotated(t, [m]), NoneType])) == Raised(AnnotationError)
    ensures GetAnnotation(Union([Bare(t), NoneType])) == Raised(AnnotationError)
    ensures |members| != 2 ==> GetAnnotation(Union(members)) == Raised(UnpackError(|members|))
    ensures |ms| != 1 ==> GetAnnotation(Annotated(t, ms)) == Raised(UnpackError(|ms| + 1))
  {
  }

  // ---------------------------------------------------------------------------
  // Requests, values and coercion

  /** The request as the binder sees it: route placeholders, query parameters and an
      opaque identity for everything else. */
  datatype Request = Request(matchInfo: map<string, string>, query: map<string, string>, context: nat)

  /** A declared default: the int and str literals the getter coerces. */
  datatype Scalar = IntValue(i: int) | StrValue(s: string)

  /** A Python value handed to a handler. */
  datatype Value =
    | NoneValue
    | Int(i: int)
    | Str(s: string)
    | Instance(cls: TypeId, arg: Scalar)   // cls(arg) for a class other than int and str
    | Req(request: Request)
    | Object(id: nat)                      // anything else an injector factory returns

  /** An injected dependency: a factory from the request to a value. */
  datatype Factory = Factory(make: Request -> Value)

  /** One parameter of a handler's signature. `default` is None both when no default is
      declared and when the default is None, as provider.py:30 makes them the same. */
  datatype Param = Param(name: string, hint: Hint, default: Option<Scalar>)

  /** A request handler: its qualified name, its signature and what it returns for
      given keyword arguments. */
  datatype Handler = Handler(qualname: string, params: seq<Param>, body: seq<(string, Value)> -> Value)

  /** Python never repeats a parameter name within one signature. */
  predicate DistinctNames(params: seq<Param>) {
    forall i, j :: 0 <= i < j < |params| ==> params[i].name != params[j].name
  }

  /** typ(value): int() parses strings and keeps ints, str() keeps strings and prints
      ints, any other class is constructed from the value. int() and str() refuse
      decimal numbers of more than IntMaxStrDigits digits. */
  function Coerce(typ: TypeId, v: Scalar): (r: Outcome<Value>)
    ensures r.Raised? <==>
              || (typ == IntType && v.StrValue? && ParseInt(v.s).None?)
              || (typ == StrType && v.IntValue? && NumDigits(IntToString(v.i)) > IntMaxStrDigits)
    ensures r.Raised? ==> r.exc.CoercionError?
    ensures typ == IntType && v.IntValue? ==> r == Returned(Int(v.i))
    ensures typ == IntType && v.StrValue? && r.Returned? ==>
              r.value == Int(LiteralValue(StripWith(IntWhitespace, v.s)))
    ensures typ == IntType && v.StrValue? ==>
              (r == Raised(CoercionError(ToIntLimitMessage(NumDigits(ScannedDigits(v.s))))) <==> ExceedsDigitLimit(v.s))
    ensures typ == StrType && v.StrValue? ==> r == Returned(Str(v.s))
    ensures typ == StrType && v.IntValue? && r.Returned? ==> r.value == Str(IntToString(v.i))
    ensures typ == StrType && v.IntValue? && r.Raised? ==> r.exc == CoercionError(ToStrLimitMessage)
  {
    match typ
    case IntType =>
      (match v
       case IntValue(i) => Returned(Int(i))
       case StrValue(s) =>
         DigitLimitRejects(s);
         IntMessagesDistinct(s, NumDigits(ScannedDigits(s)));
         match ParseInt(s)
         case Some(i) => Returned(Int(i))
         case None =>
           if ExceedsDigitLimit(s) then Raised(CoercionError(ToIntLimitMessage(NumDigits(ScannedDigits(s)))))
           else Raised(CoercionError(InvalidLiteralMessage(s))))
    case StrType =>
      (match v
       case IntValue(i) =>
         if NumDigits(IntToString(i)) > IntMaxStrDigits then Raised(CoercionError(ToStrLimitMessage))
         else Returned(Str(IntToString(i)))
       case StrValue(s) => Returned(Str(s)))
    case _ => Returned(Instance(typ, v))
  }

  /** Coercing to str and back to int is the identity on ints within the digit limit,
      so an int default and its decimal spelling in a request bind to the same value. */
  lemma CoerceIntStrRoundTrip(i: int)
    requires NumDigits(IntToString(i)) <= IntMaxStrDigits
    ensures Coerce(StrType, IntValue(i)) == Returned(Str(IntToString(i)))
    ensures Coerce(IntType, StrValue(IntToString(i))) == Returned(Int(i))
  {
    ParseIntToString(i);
  }

  /** A request value of more than IntMaxStrDigits plain digits is a coercion
      ValueError on the limit, not a number. */
  lemma CoerceRejectsLongLiteral(d: string)
    requires |d| > IntMaxStrDigits
    requires forall k :: 0 <= k < |d| ==> IsDigit(d[k])
    ensures Coerce(IntType, StrValue(d)) == Raised(CoercionError(ToIntLimitMessage(|d|)))
  {
    AllDigitsValid(d);
    assert StripWith(IntWhitespace, d) == d;
    LiteralIsScanned(d);
  }

  /** int() does not skip the separators U+001C..U+001F: a request value with one of
      them around the digits is a coercion ValueError, not a number. */
  lemma CoerceRejectsSeparator(c: char, s: string)
    requires '\U{1C}' <= c <= '\U{1F}'
    ensures Coerce(IntType, StrValue([c] + s)).Raised?
    ensures Coerce(IntType, StrValue(s + [c])).Raised?
  {
    ParseIntRejectsLeadingSeparator(c, s);
    ParseIntRejectsTrailingSeparator(c, s);
  }

  // ---------------------------------------------------------------------------
  // The getter of one extracted parameter (__getter, __get_from_path, __get_from_query)

  datatype Source = PathSource | QuerySource

  /** The sources every extracted parameter consults, in this order. */
  const Sources: seq<Source> := [PathSource, QuerySource]

  /** request.match_info.get(key) and request.query.get(key) */
  function Lookup(source: Source, key: string, request: Request): (v: Option<string>)
    ensures source == PathSource ==>
              (v.Some? <==> key in request.matchInfo) && (v.Some? ==> v.value == request.matchInfo[key])
    ensures source == QuerySource ==>
              (v.Some? <==> key in request.query) && (v.Some? ==> v.value == request.query[key])
  {
    match source
    case PathSource => if key in request.matchInfo then Some(request.matchInfo[key]) else None
    case QuerySource => if key in request.query then Some(request.query[key]) else None
  }

  /** `if value:` on what a source returned: present and not empty. */
  predicate Truthy(v: Option<string>) {
    v.Some? && v.value != ""
  }

  /** Where the for-loop over the sources breaks: the first source with a truthy value,
      or |sources| when none has one. */
  function FirstTruthy(sources: seq<Source>, key: string, request: Request): (k: nat)
    ensures k <= |sources|
    ensures forall j :: 0 <= j < k ==> !Truthy(Lookup(sources[j], key, request))
    ensures k < |sources| ==> Truthy(Lookup(sources[k], key, request))
  {
    if sources == [] then 0
    else if Truthy(Lookup(sources[0], key, request)) then 0
    else 1 + FirstTruthy(sources[1..], key, request)
  }

  /** The value the getter settles on before coercion: the first truthy source, else
      the default. */
  function Chosen(sources: seq<Source>, key: string, default: Option<Scalar>, request: Request): Option<Scalar> {
    var k := FirstTruthy(sources, key, request);
    if k < |sources| then Some(StrValue(Lookup(sources[k], key, request).value)) else default
  }

  /** What Provider.__getter returns or raises. */
  function Resolve(name: string, typ: TypeId, optional: bool, default: Option<Scalar>,
                   sources: seq<Source>, request: Request): Outcome<Value>
  {
    match Chosen(sources, name, default, request)
    case None => if optional then Returned(NoneValue) else Raised(MissingValue(name))
    case Some(v) => Coerce(typ, v)
  }

  /** A non-empty path value wins over anything in the query. */
  lemma PathPreferred(name: string, typ: TypeId, optional: bool, default: Option<Scalar>, request: Request)
    requires Truthy(Lookup(PathSource, name, request))
    ensures Resolve(name, typ, optional, default, Sources, request)
         == Coerce(typ, StrValue(request.matchInfo[name]))
  {
  }

  /** A missing or empty path value falls through to a non-empty query value. */
  lemma QueryFallback(name: string, typ: TypeId, optional: bool, default: Option<Scalar>, request: Request)
    requires !Truthy(Lookup(PathSource, name, request))
    requires Truthy(Lookup(QuerySource, name, request))
    ensures Resolve(name, typ, optional, default, Sources, request)
         == Coerce(typ, StrValue(request.query[name]))
  {
    assert Sources[1..] == [QuerySource];
    assert FirstTruthy(Sources[1..], name, request) == 0;
  }

  /** With neither source truthy the default is coerced; with no default an optional
      parameter gets None and a required one raises the missing-value TypeError. */
  lemma DefaultFallback(name: string, typ: TypeId, optional: bool, default: Option<Scalar>, request: Request)
    requires !Truthy(Lookup(PathSource, name, request))
    requires !Truthy(Lookup(QuerySource, name, request))
    ensures default.Some? ==> Resolve(name, typ, optional, default, Sources, request) == Coerce(typ, default.value)
    ensures default.None? && optional ==> Resolve(name, typ, optional, default, Sources, request) == Returned(NoneValue)
    ensures default.None? && !optional ==> Resolve(name, typ, optional, default, Sources, request) == Raised(MissingValue(name))
  {
    assert Sources[1..] == [QuerySource];
    assert FirstTruthy(Sources, name, request) == 2;
  }

  /** An empty string in a source is the same as no entry at all. */
  lemma {:induction false} EmptyCountsAsAbsent(sources: seq<Source>, name: string, typ: TypeId, optional: bool,
                                               default: Option<Scalar>, request: Request)
    ensures var withEmpty := request.(matchInfo := request.matchInfo[name := ""]);
            var without := request.(matchInfo := request.matchInfo - {name});
            Resolve(name, typ, optional, default, sources, withEmpty)
            == Resolve(name, typ, optional, default, sources, without)
  {
    var withEmpty := request.(matchInfo := request.matchInfo[name := ""]);
    var without := request.(matchInfo := request.matchInfo - {name});
    SameTruthiness(sources, name, withEmpty, without);
  }

  lemma {:induction false} SameTruthiness(sources: seq<Source>, name: string, r1: Request, r2: Request)
    requires r1.query == r2.query
    requires !Truthy(Lookup(PathSource, name, r1)) && !Truthy(Lookup(PathSource, name, r2))
    ensures FirstTruthy(sources, name, r1) == FirstTruthy(sources, name, r2)
    ensures forall k :: FirstTruthy(sources, name, r1) == k < |sources| ==>
              Lookup(sources[k], name, r1) == Lookup(sources[k], name, r2)
  {
    if sources != [] {
      SameTruthiness(sources[1..], name, r1, r2);
    }
  }

  /** Provider.__getter: the for-else loop over the sources, then the None check and the
      coercion. */
  method Getter(name: string, typ: TypeId, optional: bool, default: Option<Scalar>,
                sources: seq<Source>, request: Request) returns (r: Outcome<Value>)
    ensures r == Resolve(name, typ, optional, default, sources, request)
  {
    var value: Option<Scalar> := None;
    var found := false;
    var i := 0;
    while i < |sources|
      invariant 0 <= i <= |sources|
      invariant !found ==> FirstTruthy(sources, name, request) == i + FirstTruthy(sources[i..], name, request)
      invariant found ==> value == Chosen(sources, name, default, request) && value.Some?
    {
      var v := Lookup(sources[i], name, request);
      if v.Some? && v.value != "" {
        value := Some(StrValue(v.value));
        found := true;
        break;
      }
      assert sources[i..][1..] == sources[i + 1..];
      i := i + 1;
    }
    if !found {
      value := default;
    }
    if value.None? {
      if optional {
        return Returned(NoneValue);
      }
      return Raised(MissingValue(name));
    }
    r := Coerce(typ, value.value);
  }

  // ---------------------------------------------------------------------------
  // Registration (__inspect)

  /** What self.__args holds for one parameter: the injector factory itself, or the
      partial application of __getter. */
  datatype Binding =
    | Inject(factory: Factory)
    | Extract(typ: TypeId, optional: bool, default: Option<Scalar>, sources: seq<Source>)

  /** The body of the try block of __inspect for one parameter. */
  function BindParam(p: Param, injectors: map<TypeId, Factory>): Outcome<Binding> {
    match GetAnnotation(p.hint)
    case Raised(e) => Raised(e)
    case Returned(a) =>
      if a.typ in injectors then Returned(Inject(injectors[a.typ]))
      else Returned(Extract(a.typ, a.optional, p.default, Sources))
  }

  /** A parameter whose type has an injector is bound to that factory whatever its
      optional flag and default; otherwise to the path -> query getter with its own
      optional flag and default. */
  lemma BindParamChoice(p: Param, injectors: map<TypeId, Factory>, a: Annotation)
    requires GetAnnotation(p.hint) == Returned(a)
    ensures a.typ in injectors ==> BindParam(p, injectors) == Returned(Inject(injectors[a.typ]))
    ensures a.typ !in injectors ==> BindParam(p, injectors) == Returned(Extract(a.typ, a.optional, p.default, Sources))
    ensures a.optional <==> p.hint.Union?
  {
  }

  /** The registration message for a malformed parameter, as provider.py:48-49 builds it:
      the second string literal is a separate statement, so the message stops after
      "at <name> ". */
  function SignatureMessageAsWritten(name: string, qualname: string): string {
    "Argument \"" + name + "\" of handler \"" + qualname + "\" at " + name + " "
  }

  const NotAnnotatedReason: string := "is not Annotated[type, msgspec.Meta]!"

  /** The message the two literals were evidently meant to form together. */
  function SignatureMessage(name: string, qualname: string): (msg: string)
    ensures msg == SignatureMessageAsWritten(name, qualname) + NotAnnotatedReason
    ensures |msg| >= |NotAnnotatedReason| && msg[|msg| - |NotAnnotatedReason|..] == NotAnnotatedReason
  {
    SignatureMessageAsWritten(name, qualname) + NotAnnotatedReason
  }

  /** As written, the message never says what is wrong: it ends in a space, not in the
      reason. */
  lemma AsWrittenMessageLacksReason(name: string, qualname: string)
    ensures var msg := SignatureMessageAsWritten(name, qualname);
            msg[|msg| - 1] == ' ' && !(|msg| >= |NotAnnotatedReason| && msg[|msg| - |NotAnnotatedReason|..] == NotAnnotatedReason)
  {
    var msg := SignatureMessageAsWritten(name, qualname);
    var reason := NotAnnotatedReason;
    assert msg[|msg| - 1] == ' ';
    if |msg| >= |reason| {
      assert msg[|msg| - |reason|..][|reason| - 1] == ' ';
      assert reason[|reason| - 1] == '!';
    }
  }

  /** The state of __inspect after some parameters: the bindings written to self.__args,
      the registration messages collected, and the exception that escaped, if any. */
  datatype Inspection = Inspection(bindings: seq<(string, Binding)>, errors: seq<string>, aborted: Option<Exception>)

  /** One iteration of the loop of __inspect: a TypeError from the annotation is
      recorded and the loop goes on; any other exception leaves __inspect. */
  function InspectStep(prev: Inspection, p: Param, injectors: map<TypeId, Factory>, qualname: string): Inspection {
    if prev.aborted.Some? then prev
    else
      match BindParam(p, injectors)
      case Returned(b) => prev.(bindings := prev.bindings + [(p.name, b)])
      case Raised(e) =>
        if e.IsTypeError() then prev.(errors := prev.errors + [SignatureMessage(p.name, qualname)])
        else prev.(aborted := Some(e))
  }

  /** The loop of __inspect over the parameters. */
  function Inspected(params: seq<Param>, injectors: map<TypeId, Factory>, qualname: string): Inspection
    decreases |params|
  {
    if params == [] then Inspection([], [], None)
    else InspectStep(Inspected(params[..|params| - 1], injectors, qualname), params[|params| - 1], injectors, qualname)
  }

  lemma InspectedPrefix(params: seq<Param>, i: nat, injectors: map<TypeId, Factory>, qualname: string)
    requires i < |params|
    ensures Inspected(params[..i + 1], injectors, qualname)
         == InspectStep(Inspected(params[..i], injectors, qualname), params[i], injectors, qualname)
  {
    assert params[..i + 1][..i] == params[..i];
  }

  /** Outcome of Provider(handler, type_injectors): the bindings, or what it raises. */
  function Registration(handler: Handler, injectors: map<TypeId, Factory>): Outcome<seq<(string, Binding)>> {
    var ins := Inspected(handler.params, injectors, handler.qualname);
    if ins.aborted.Some? then Raised(ins.aborted.value)
    else if ins.errors != [] then Raised(SignatureError(ins.errors))
    else Returned(ins.bindings)
  }

  /** A parameter whose annotation is not Annotated[T, Meta] or Optional of it. */
  predicate Malformed(p: Param) {
    GetAnnotation(p.hint) == Raised(AnnotationError)
  }

  /** A parameter whose annotation makes a tuple unpacking raise ValueError. */
  predicate BadArity(p: Param) {
    GetAnnotation(p.hint).Raised? && GetAnnotation(p.hint).exc.UnpackError?
  }

  /** One message per malformed parameter, in declaration order. */
  function MalformedMessages(params: seq<Param>, qualname: string): seq<string> {
    if params == [] then []
    else (if Malformed(params[0]) then [SignatureMessage(params[0].name, qualname)] else [])
         + MalformedMessages(params[1..], qualname)
  }

  /** The bindings of the well-formed parameters, in declaration order. */
  function Bound(params: seq<Param>, injectors: map<TypeId, Factory>): seq<(string, Binding)> {
    if params == [] then []
    else (match BindParam(params[0], injectors)
          case Returned(b) => [(params[0].name, b)]
          case Raised(_) => [])
         + Bound(params[1..], injectors)
  }

  /** The ValueError of the first parameter with a bad tuple arity, if any. */
  function FirstBadArity(params: seq<Param>): Option<Exception> {
    if params == [] then None
    else if BadArity(params[0]) then Some(GetAnnotation(params[0].hint).exc)
    else FirstBadArity(params[1..])
  }

  lemma {:induction false} MalformedMessagesSnoc(params: seq<Param>, p: Param, qualname: string)
    ensures MalformedMessages(params + [p], qualname)
         == MalformedMessages(params, qualname) + (if Malformed(p) then [SignatureMessage(p.name, qualname)] else [])
  {
    if params != [] {
      assert (params + [p])[1..] == params[1..] + [p];
      MalformedMessagesSnoc(params[1..], p, qualname);
    } else {
      assert [p][1..] == [];
    }
  }

  lemma {:induction false} BoundSnoc(params: seq<Param>, p: Param, injectors: map<TypeId, Factory>)
    ensures Bound(params + [p], injectors)
         == Bound(params, injectors) + (match BindParam(p, injectors) case Returned(b) => [(p.name, b)] case Raised(_) => [])
  {
    if params != [] {
      assert (params + [p])[1..] == params[1..] + [p];
      BoundSnoc(params[1..], p, injectors);
    } else {
      assert [p][1..] == [];
    }
  }

  lemma {:induction false} FirstBadAritySnoc(params: seq<Param>, p: Param)
    ensures FirstBadArity(params + [p])
         == if FirstBadArity(params).Some? then FirstBadArity(params)
            else if BadArity(p) then Some(GetAnnotation(p.hint).exc) else None
  {
    if params != [] {
      assert (params + [p])[1..] == params[1..] + [p];
      FirstBadAritySnoc(params[1..], p);
    } else {
      assert [p][1..] == [];
    }
  }

  /** Registration is total: __inspect examines every parameter, records exactly one
      message per malformed one, binds every well-formed one, and stops early only on
      the first tuple-arity ValueError, which escapes as itself. */
  lemma {:induction false} InspectedCharacterised(params: seq<Param>, injectors: map<TypeId, Factory>, qualname: string)
    ensures Inspected(params, injectors, qualname).aborted == FirstBadArity(params)
    ensures FirstBadArity(params).None? ==>
              && Inspected(params, injectors, qualname).errors == MalformedMessages(params, qualname)
              && Inspected(params, injectors, qualname).bindings == Bound(params, injectors)
    decreases |params|
  {
    if params != [] {
      var init := params[..|params| - 1];
      var p := params[|params| - 1];
      assert params == init + [p];
      InspectedCharacterised(init, injectors, qualname);
      FirstBadAritySnoc(init, p);
      MalformedMessagesSnoc(init, p, qualname);
      BoundSnoc(init, p, injectors);
    }
  }

  /** The registration outcome: the first arity ValueError if there is one, else one
      SignatureError carrying a message for every malformed parameter if there is any,
      else the bindings of all parameters. */
  lemma RegistrationOutcome(handler: Handler, injectors: map<TypeId, Factory>)
    ensures FirstBadArity(handler.params).Some? ==>
              Registration(handler, injectors) == Raised(FirstBadArity(handler.params).value)
    ensures FirstBadArity(handler.params).None? && MalformedMessages(handler.params, handler.qualname) != [] ==>
              Registration(handler, injectors) == Raised(SignatureError(MalformedMessages(handler.params, handler.qualname)))
    ensures FirstBadArity(handler.params).None? && MalformedMessages(handler.params, handler.qualname) == [] ==>
              Registration(handler, injectors) == Returned(Bound(handler.params, injectors))
  {
    InspectedCharacterised(handler.params, injectors, handler.qualname);
  }

  /** Every parameter is accounted for exactly once: it is either bound or named by a
      message, and every malformed parameter is named. */
  lemma {:induction false} EveryParamAccountedFor(params: seq<Param>, injectors: map<TypeId, Factory>, qualname: string)
    requires FirstBadArity(params).None?
    ensures |MalformedMessages(params, qualname)| + |Bound(params, injectors)| == |params|
    ensures forall k :: 0 <= k < |params| && Malformed(params[k]) ==>
              SignatureMessage(params[k].name, qualname) in MalformedMessages(params, qualname)
  {
    if params != [] {
      EveryParamAccountedFor(params[1..], injectors, qualname);
      forall k | 0 <= k < |params| && Malformed(params[k])
        ensures SignatureMessage(params[k].name, qualname) in MalformedMessages(params, qualname)
      {
        if k > 0 {
          assert params[1..][k - 1] == params[k];
        }
      }
    }
  }

  /** With no malformed parameter and no arity error, registration succeeds and binds
      every parameter under its own name, in declaration order. */
  lemma {:induction false} WellFormedRegistration(handler: Handler, injectors: map<TypeId, Factory>)
    requires forall i :: 0 <= i < |handler.params| ==> GetAnnotation(handler.params[i].hint).Returned?
    ensures Registration(handler, injectors).Returned?
    ensures var bs := Registration(handler, injectors).value;
            && |bs| == |handler.params|
            && forall i :: 0 <= i < |bs| ==>
                 bs[i] == (handler.params[i].name, BindParam(handler.params[i], injectors).value)
  {
    AllBound(handler.params, injectors, handler.qualname);
    RegistrationOutcome(handler, injectors);
  }

  lemma {:induction false} AllBound(params: seq<Param>, injectors: map<TypeId, Factory>, qualname: string)
    requires forall i :: 0 <= i < |params| ==> GetAnnotation(params[i].hint).Returned?
    ensures FirstBadArity(params).None? && MalformedMessages(params, qualname) == []
    ensures |Bound(params, injectors)| == |params|
    ensures forall i :: 0 <= i < |params| ==>
              Bound(params, injectors)[i] == (params[i].name, BindParam(params[i], injectors).value)
  {
    if params != [] {
      AllBound(params[1..], injectors, qualname);
      var b := BindParam(params[0], injectors).value;
      assert Bound(params, injectors) == [(params[0].name, b)] + Bound(params[1..], injectors);
    }
  }

  /** Two malformed parameters are both named in the one SignatureError. */
  lemma TwoMalformedBothReported(handler: Handler, injectors: map<TypeId, Factory>, t1: TypeId, t2: TypeId)
    requires |handler.params| == 2
    requires handler.params[0].hint == Bare(t1) && handler.params[1].hint == Bare(t2)
    ensures Registration(handler, injectors) == Raised(SignatureError([
              SignatureMessage(handler.params[0].name, handler.qualname),
              SignatureMessage(handler.params[1].name, handler.qualname)]))
  {
    var ps := handler.params;
    var q := handler.qualname;
    assert ps[1..][1..] == [];
    assert Malformed(ps[0]) && Malformed(ps[1]) && !BadArity(ps[0]) && !BadArity(ps[1]);
    assert FirstBadArity(ps[1..]) == None;
    assert FirstBadArity(ps) == None;
    assert MalformedMessages(ps[1..], q) == [SignatureMessage(ps[1].name, q)];
    assert MalformedMessages(ps, q) == [SignatureMessage(ps[0].name, q), SignatureMessage(ps[1].name, q)];
    RegistrationOutcome(handler, injectors);
  }

  // ---------------------------------------------------------------------------
  // Request time (gather_args)

  /** getter(request=request) for one binding. */
  function Invoke(name: string, b: Binding, request: Request): Outcome<Value> {
    match b
    case Inject(factory) => Returned(factory.make(request))
    case Extract(typ, optional, default, sources) => Resolve(name, typ, optional, default, sources, request)
  }

  /** An injected parameter yields factory(request) and never raises; an extracted one
      raises only the missing-value TypeError or a coercion ValueError. */
  lemma InvokeRaises(name: string, b: Binding, request: Request)
    ensures b.Inject? ==> Invoke(name, b, request) == Returned(b.factory.make(request))
    ensures Invoke(name, b, request).Raised? ==>
              Invoke(name, b, request).exc == MissingValue(name) || Invoke(name, b, request).exc.CoercionError?
  {
  }

  /** The state of gather_args after some bindings: the (name, value) pairs, the
      (name, message) pairs of the ValueErrors caught, and the exception that escaped. */
  datatype Gathering = Gathering(args: seq<(string, Value)>, errors: seq<(string, string)>, escaped: Option<Exception>)

  /** One iteration of the loop of gather_args: a ValueError is caught and recorded,
      anything else leaves the loop. */
  function GatherStep(prev: Gathering, key: string, getter: Binding, request: Request): Gathering {
    if prev.escaped.Some? then prev
    else
      match Invoke(key, getter, request)
      case Returned(v) => prev.(args := prev.args + [(key, v)])
      case Raised(e) =>
        if e.IsValueError() then prev.(errors := prev.errors + [(key, e.Message())])
        else prev.(escaped := Some(e))
  }

  /** The loop of gather_args over the bindings. */
  function Gathered(bindings: seq<(string, Binding)>, request: Request): Gathering
    decreases |bindings|
  {
    if bindings == [] then Gathering([], [], None)
    else
      var last := bindings[|bindings| - 1];
      GatherStep(Gathered(bindings[..|bindings| - 1], request), last.0, last.1, request)
  }

  lemma GatheredPrefix(bindings: seq<(string, Binding)>, i: nat, request: Request)
    requires i < |bindings|
    ensures Gathered(bindings[..i + 1], request)
         == GatherStep(Gathered(bindings[..i], request), bindings[i].0, bindings[i].1, request)
  {
    assert bindings[..i + 1][..i] == bindings[..i];
  }

  /** What Provider.gather_args returns or raises. */
  function Gather(bindings: seq<(string, Binding)>, request: Request): Outcome<seq<(string, Value)>> {
    var g := Gathered(bindings, request);
    if g.escaped.Some? then Raised(g.escaped.value)
    else if g.errors != [] then Raised(ValidationError(g.errors))
    else Returned(g.args)
  }

  function SuccessOf(key: string, getter: Binding, request: Request): seq<(string, Value)> {
    match Invoke(key, getter, request)
    case Returned(v) => [(key, v)]
    case Raised(_) => []
  }

  function FailureOf(key: string, getter: Binding, request: Request): seq<(string, string)> {
    match Invoke(key, getter, request)
    case Raised(e) => if e.IsValueError() then [(key, e.Message())] else []
    case Returned(_) => []
  }

  /** Escapes(b) holds when the binding raises something gather_args does not catch. */
  predicate Escapes(key: string, getter: Binding, request: Request) {
    Invoke(key, getter, request).Raised? && !Invoke(key, getter, request).exc.IsValueError()
  }

  /** The values of the bindings that return, in order. */
  function Successes(bindings: seq<(string, Binding)>, request: Request): seq<(string, Value)> {
    if bindings == [] then []
    else SuccessOf(bindings[0].0, bindings[0].1, request) + Successes(bindings[1..], request)
  }

  /** The coercion failures of the bindings that raise ValueError, in order. */
  function Failures(bindings: seq<(string, Binding)>, request: Request): seq<(string, string)> {
    if bindings == [] then []
    else FailureOf(bindings[0].0, bindings[0].1, request) + Failures(bindings[1..], request)
  }

  /** The exception of the first binding that raises something other than ValueError. */
  function FirstEscape(bindings: seq<(string, Binding)>, request: Request): Option<Exception> {
    if bindings == [] then None
    else if Escapes(bindings[0].0, bindings[0].1, request) then Some(Invoke(bindings[0].0, bindings[0].1, request).exc)
    else FirstEscape(bindings[1..], request)
  }

  lemma {:induction false} SuccessesSnoc(bindings: seq<(string, Binding)>, b: (string, Binding), request: Request)
    ensures Successes(bindings + [b], request) == Successes(bindings, request) + SuccessOf(b.0, b.1, request)
  {
    if bindings != [] {
      assert (bindings + [b])[1..] == bindings[1..] + [b];
      SuccessesSnoc(bindings[1..], b, request);
    } else {
      assert [b][1..] == [];
    }
  }

  lemma {:induction false} FailuresSnoc(bindings: seq<(string, Binding)>, b: (string, Binding), request: Request)
    ensures Failures(bindings + [b], request) == Failures(bindings, request) + FailureOf(b.0, b.1, request)
  {
    if bindings != [] {
      assert (bindings + [b])[1..] == bindings[1..] + [b];
      FailuresSnoc(bindings[1..], b, request);
    } else {
      assert [b][1..] == [];
    }
  }

  lemma {:induction false} FirstEscapeSnoc(bindings: seq<(string, Binding)>, b: (string, Binding), request: Request)
    ensures FirstEscape(bindings + [b], request)
         == if FirstEscape(bindings, request).Some? then FirstEscape(bindings, request)
            else if Escapes(b.0, b.1, request) then Some(Invoke(b.0, b.1, request).exc) else None
  {
    if bindings != [] {
      assert (bindings + [b])[1..] == bindings[1..] + [b];
      FirstEscapeSnoc(bindings[1..], b, request);
    } else {
      assert [b][1..] == [];
    }
  }

  /** Request-time validation runs every binding until one raises something other
      than ValueError: the values and the coercion failures are exactly those of all
      bindings, in declaration order; a missing required value escapes as itself. */
  lemma {:induction false} GatheredCharacterised(bindings: seq<(string, Binding)>, request: Request)
    ensures Gathered(bindings, request).escaped == FirstEscape(bindings, request)
    ensures FirstEscape(bindings, request).None? ==>
              && Gathered(bindings, request).args == Successes(bindings, request)
              && Gathered(bindings, request).errors == Failures(bindings, request)
    decreases |bindings|
  {
    if bindings != [] {
      var init := bindings[..|bindings| - 1];
      var b := bindings[|bindings| - 1];
      assert bindings == init + [b];
      GatheredCharacterised(init, request);
      SuccessesSnoc(init, b, request);
      FailuresSnoc(init, b, request);
      FirstEscapeSnoc(init, b, request);
    }
  }

  /** gather_args: the first escaping exception if any binding raises one, else one
      ValidationError with every coercion failure if there is any, else the values. */
  lemma GatherOutcome(bindings: seq<(string, Binding)>, request: Request)
    ensures FirstEscape(bindings, request).Some? ==>
              Gather(bindings, request) == Raised(FirstEscape(bindings, request).value)
    ensures FirstEscape(bindings, request).None? && Failures(bindings, request) != [] ==>
              Gather(bindings, request) == Raised(ValidationError(Failures(bindings, request)))
    ensures FirstEscape(bindings, request).None? && Failures(bindings, request) == [] ==>
              Gather(bindings, request) == Returned(Successes(bindings, request))
  {
    GatheredCharacterised(bindings, request);
  }

  /** On success the mapping has exactly the bound names as keys, in binding order, each
      with the value its binding produced. */
  lemma {:induction false} GatherKeys(bindings: seq<(string, Binding)>, request: Request)
    requires Gather(bindings, request).Returned?
    ensures var args := Gather(bindings, request).value;
            && |args| == |bindings|
            && forall i :: 0 <= i < |args| ==>
                 args[i].0 == bindings[i].0 && Invoke(bindings[i].0, bindings[i].1, request) == Returned(args[i].1)
    decreases |bindings|
  {
    if bindings != [] {
      var init := bindings[..|bindings| - 1];
      var prev := Gathered(init, request);
      var (key, getter) := bindings[|bindings| - 1];
      assert prev.escaped.None? && prev.errors == [];
      assert Invoke(key, getter, request).Returned?;
      GatherKeys(init, request);
    }
  }

  /** Everything gather_args raises is a TypeError, so the router's `except TypeError`
      catches every request-time failure. */
  lemma GatherRaisesTypeError(bindings: seq<(string, Binding)>, request: Request)
    ensures Gather(bindings, request).Raised? ==> Gather(bindings, request).exc.IsTypeError()
  {
    GatheredCharacterised(bindings, request);
    EscapeIsMissingValue(bindings, request);
  }

  lemma {:induction false} EscapeIsMissingValue(bindings: seq<(string, Binding)>, request: Request)
    ensures FirstEscape(bindings, request).Some? ==> FirstEscape(bindings, request).value.MissingValue?
  {
    if bindings != [] {
      InvokeRaises(bindings[0].0, bindings[0].1, request);
      EscapeIsMissingValue(bindings[1..], request);
    }
  }

  /** Two required parameters missing from the request: gather_args raises for the first
      one only; the second is never examined. */
  lemma TwoMissingReportsFirst(n1: string, n2: string, t1: TypeId, t2: TypeId, request: Request)
    requires !Truthy(Lookup(PathSource, n1, request)) && !Truthy(Lookup(QuerySource, n1, request))
    requires !Truthy(Lookup(PathSource, n2, request)) && !Truthy(Lookup(QuerySource, n2, request))
    ensures Gather([(n1, Extract(t1, false, None, Sources)), (n2, Extract(t2, false, None, Sources))], request)
         == Raised(MissingValue(n1))
  {
    var bs := [(n1, Extract(t1, false, None, Sources)), (n2, Extract(t2, false, None, Sources))];
    DefaultFallback(n1, t1, false, None, request);
    DefaultFallback(n2, t2, false, None, request);
    assert bs[1..] == [bs[1]];
    GatherOutcome(bs, request);
  }

  // ---------------------------------------------------------------------------
  // The provider object

  /** One Provider per registered handler: the injector map it was built against and
      the binding table self.__args, a name-ordered dict kept as its item list. */
  class Provider {
    const injectors: map<TypeId, Factory>
    var args: seq<(string, Binding)>

    /** Provider.__init__ up to the call of __inspect. */
    constructor(injectors: map<TypeId, Factory>)
      ensures this.injectors == injectors && args == []
    {
      this.injectors := injectors;
      args := [];
    }

    /** Provider.__inspect: binds every parameter and collects the registration errors;
        returns the exception __init__ raises, if any. */
    method Inspect(handler: Handler) returns (raised: Option<Exception>)
      requires args == []
      requires DistinctNames(handler.params)
      modifies this
      ensures args == Inspected(handler.params, injectors, handler.qualname).bindings
      ensures raised.Some? <==> Registration(handler, injectors).Raised?
      ensures raised.Some? ==> raised.value == Registration(handler, injectors).exc
      ensures raised.None? ==> args == Registration(handler, injectors).value
    {
      var params := handler.params;
      var errors: seq<string> := [];
      var i := 0;
      while i < |params|
        invariant 0 <= i <= |params|
        invariant Inspection(args, errors, None) == Inspected(params[..i], injectors, handler.qualname)
      {
        var p := params[i];
        InspectedPrefix(params, i, injectors, handler.qualname);
        match GetAnnotation(p.hint) {
          case Raised(e) =>
            if e.IsTypeError() {
              errors := errors + [SignatureMessage(p.name, handler.qualname)];
            } else {
              assert Inspected(params[..i + 1], injectors, handler.qualname).aborted == Some(e);
              AbortPersists(params, i + 1, injectors, handler.qualname);
              assert params[..|params|] == params;
              return Some(e);
            }
          case Returned(a) =>
            var default := p.default;
            var sources := [PathSource, QuerySource];
            if a.typ in injectors {
              args := args + [(p.name, Inject(injectors[a.typ]))];
            } else {
              args := args + [(p.name, Extract(a.typ, a.optional, default, sources))];
            }
        }
        i := i + 1;
      }
      assert params[..|params|] == params;
      if errors != [] {
        return Some(SignatureError(errors));
      }
      return None;
    }

    /** Provider.gather_args: runs every getter in declaration order. It changes
        nothing, so two calls on the same request return the same result. */
    method GatherArgs(request: Request) returns (r: Outcome<seq<(string, Value)>>)
      ensures r == Gather(args, request)
    {
      var bindings := args;
      var collected: seq<(string, Value)> := [];
      var errors: seq<(string, string)> := [];
      for i := 0 to |bindings|
        invariant Gathering(collected, errors, None) == Gathered(bindings[..i], request)
      {
        var (key, getter) := bindings[i];
        GatheredPrefix(bindings, i, request);
        var result := Call(key, getter, request);
        match result {
          case Returned(v) => collected := collected + [(key, v)];
          case Raised(e) =>
            if e.IsValueError() {
              errors := errors + [(key, e.Message())];
            } else {
              EscapePersists(bindings, i + 1, request);
              assert bindings[..|bindings|] == bindings;
              return Raised(e);
            }
        }
      }
      assert bindings[..|bindings|] == bindings;
      if errors != [] {
        return Raised(ValidationError(errors));
      }
      return Returned(collected);
    }
  }

  /** getter(request=request): the factory for an injected binding, the getter for an
      extracted one. */
  method Call(key: string, getter: Binding, request: Request) returns (r: Outcome<Value>)
    ensures r == Invoke(key, getter, request)
  {
    match getter {
      case Inject(factory) => r := Returned(factory.make(request));
      case Extract(typ, optional, default, sources) =>
        r := Getter(key, typ, optional, default, sources, request);
    }
  }

  /** Once __inspect has raised, later parameters change nothing. */
  lemma {:induction false} AbortPersists(params: seq<Param>, k: nat, injectors: map<TypeId, Factory>, qualname: string)
    requires k <= |params|
    requires Inspected(params[..k], injectors, qualname).aborted.Some?
    ensures Inspected(params, injectors, qualname) == Inspected(params[..k], injectors, qualname)
    decreases |params| - k
  {
    if k < |params| {
      assert params[..k + 1][..k] == params[..k];
      AbortPersists(params, k + 1, injectors, qualname);
    } else {
      assert params[..k] == params;
    }
  }

  /** Once gather_args has let an exception escape, later bindings change nothing. */
  lemma {:induction false} EscapePersists(bindings: seq<(string, Binding)>, k: nat, request: Request)
    requires k <= |bindings|
    requires Gathered(bindings[..k], request).escaped.Some?
    ensures Gathered(bindings, request) == Gathered(bindings[..k], request)
    decreases |bindings| - k
  {
    if k < |bindings| {
      assert bindings[..k + 1][..k] == bindings[..k];
      EscapePersists(bindings, k + 1, request);
    } else {
      assert bindings[..k] == bindings;
    }
  }
}
