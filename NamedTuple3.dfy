/**
  The `namedtuple3` entry point: keyword whitelisting, the classification of
  a call into one of four invocation shapes (first match wins), the binding
  of a standard-style call to `_namedtuple`'s parameters, the derivation of
  type name, field names and docstring from a decorated function or class,
  and the hand-off to the memoising synthesiser.
 */
module NamedTuple3 {
  import opened PyValues
  import opened CallShape
  import opened Synthesis

  /** The only keywords `namedtuple` accepts. */
  const SupportedKwargs: set<string> := {"rename", "verbose", "docstring"}

  function UnexpectedKeywordMessage(k: string): string {
    "namedtuple() got an unexpected keyword argument '" + k + "'"
  }

  /**
    `_check_kwargs`: a TypeError naming an offending keyword exactly when some
    keyword is outside the whitelist. The source names whichever offending
    keyword `set.pop` yields; the model names the first in the list's order.
   */
  function CheckKwargs(kwargs: Kwargs): (r: Result<()>)
    ensures r.Ok? <==> forall i :: 0 <= i < |kwargs| ==> kwargs[i].0 in SupportedKwargs
    ensures r.Err? ==> exists k :: HasKey(kwargs, k) && k !in SupportedKwargs &&
                                   r.error == TypeError(UnexpectedKeywordMessage(k))
  {
    if |kwargs| == 0 then Ok(())
    else
      match FirstViolation(kwargs, k => k in SupportedKwargs)
      case None => Ok(())
      case Some(k) => Err(TypeError(UnexpectedKeywordMessage(k)))
  }

  /** `_is_used_as_plain_function_decorator`: one positional argument, callable. */
  predicate IsUsedAsPlainFunctionDecorator(args: seq<Value>) {
    |args| == 1 && IsCallable(args[0])
  }

  /**
    `_is_used_as_plain_class_decorator`: one positional argument, a class.
    Classes are callable, so every such call also passes the function test.
   */
  predicate IsUsedAsPlainClassDecorator(args: seq<Value>)
    ensures IsUsedAsPlainClassDecorator(args) ==> IsUsedAsPlainFunctionDecorator(args)
  {
    |args| == 1 && args[0].Class?
  }

  /** The `functools.partial(_decorator, ...)` a parameterised call returns. */
  datatype Deferred = Deferred(fieldNames: Value, verbose: Value, rename: Value, docstring: Value)

  /** The four invocation shapes. */
  datatype Shape =
    | PlainClass(cls: Value)
    | PlainFunction(fn: Value)
    | StdLike
    | Parameterised(deferred: Deferred)

  /**
    The dispatch of `namedtuple(*args, **kwargs)`: keywords are checked
    first, then the shapes are tried in order. Keywords play no part in
    choosing the two plain shapes.
   */
  function Classify(args: seq<Value>, kwargs: Kwargs): (r: Result<Shape>)
    ensures r.Ok? <==> forall i :: 0 <= i < |kwargs| ==> kwargs[i].0 in SupportedKwargs
    ensures r.Err? ==> r == Err(CheckKwargs(kwargs).error)
    ensures r.Ok? ==> (r.value.PlainClass? <==> |args| == 1 && args[0].Class?)
    ensures r.Ok? ==> (r.value.PlainFunction? <==> |args| == 1 && args[0].Func?)
    ensures r.Ok? ==> (r.value.StdLike? <==> |args| > 1 && IsIterable(args[1]))
    ensures r.Ok? && r.value.PlainClass? ==> r.value.cls == args[0]
    ensures r.Ok? && r.value.PlainFunction? ==> r.value.fn == args[0]
    ensures r.Ok? && r.value.Parameterised? ==>
      r.value.deferred == Deferred(if |args| > 0 then args[0] else NoneValue,
                                   Get(kwargs, "verbose", Bool(false)),
                                   Get(kwargs, "rename", Bool(false)),
                                   Get(kwargs, "docstring", NoneValue))
  {
    match CheckKwargs(kwargs)
    case Err(e) => Err(e)
    case Ok(_) =>
      if IsUsedAsPlainClassDecorator(args) then Ok(PlainClass(args[0]))
      else if IsUsedAsPlainFunctionDecorator(args) then Ok(PlainFunction(args[0]))
      else if IsUsedLikeStdNamedtuple(args, kwargs) then Ok(StdLike)
      else
        Ok(Parameterised(Deferred(if |args| > 0 then args[0] else NoneValue,
                                  Get(kwargs, "verbose", Bool(false)),
                                  Get(kwargs, "rename", Bool(false)),
                                  Get(kwargs, "docstring", NoneValue))))
  }

  /** The parameters of `_namedtuple`, in order. */
  const Params: seq<string> := ["name", "field_names", "verbose", "rename", "docstring"]

  /** The position of parameter `p` of `_namedtuple`; 5 for any other name. */
  function ParamIndex(p: string): (i: nat)
    ensures i <= 5
    ensures i < 5 ==> Params[i] == p
    ensures i == 5 <==> p !in Params
  {
    if p == "name" then 0
    else if p == "field_names" then 1
    else if p == "verbose" then 2
    else if p == "rename" then 3
    else if p == "docstring" then 4
    else 5
  }

  /**
    Whether `_namedtuple(*args, **kwargs)` binds without a TypeError: at
    most five positionals, every keyword names a parameter that no
    positional already fills, and `name` and `field_names` are both given.
   */
  predicate Bindable(args: seq<Value>, kwargs: Kwargs) {
    && |args| <= 5
    && (forall i :: 0 <= i < |kwargs| ==> |args| <= ParamIndex(kwargs[i].0) < 5)
    && (|args| > 0 || HasKey(kwargs, "name"))
    && (|args| > 1 || HasKey(kwargs, "field_names"))
  }

  /** The value bound to parameter `p` at position `i`: positional, else keyword, else `default`. */
  function Bound(args: seq<Value>, kwargs: Kwargs, i: nat, p: string, default: Value): Value {
    if i < |args| then args[i] else Get(kwargs, p, default)
  }

  /** The five parameters of `_namedtuple`, each bound positionally, by keyword or by default. */
  function BoundRequest(args: seq<Value>, kwargs: Kwargs): Request {
    Request(Bound(args, kwargs, 0, "name", NoneValue),
            Bound(args, kwargs, 1, "field_names", NoneValue),
            Bound(args, kwargs, 2, "verbose", Bool(false)),
            Bound(args, kwargs, 3, "rename", Bool(false)),
            Bound(args, kwargs, 4, "docstring", NoneValue))
  }

  /**
    `_namedtuple(*args, **kwargs)` as Python binds it to the parameters
    `(name, field_names, verbose=False, rename=False, docstring=None)`:
    a keyword that names no parameter, or one a positional already fills,
    is a TypeError.
   */
  function BindArgs(args: seq<Value>, kwargs: Kwargs): (r: Result<Request>)
    ensures r.Ok? <==> Bindable(args, kwargs)
    ensures r.Ok? ==> r.value == BoundRequest(args, kwargs)
    ensures r.Err? ==> r.error.TypeError?
  {
    if |args| > 5 then Err(TypeError("_namedtuple() takes at most 5 arguments"))
    else
      match FirstViolation(kwargs, k => |args| <= ParamIndex(k) < 5)
      case Some(k) =>
        if ParamIndex(k) == 5 then Err(TypeError("_namedtuple() got an unexpected keyword argument '" + k + "'"))
        else Err(TypeError("_namedtuple() got multiple values for keyword argument '" + k + "'"))
      case None =>
        if (|args| == 0 && !HasKey(kwargs, "name")) || (|args| <= 1 && !HasKey(kwargs, "field_names")) then
          Err(TypeError("_namedtuple() takes at least 2 arguments"))
        else
          Ok(BoundRequest(args, kwargs))
  }

  /**
    `_class_decorator`: the type is named after the class; explicit field
    names win, otherwise the parameters of `__init__` without the first
    (`self`); an explicit docstring wins over the class's `__doc__`. Only
    without field names is `__init__` inspected: an old-style class with no
    `__init__` has no such attribute, and the slot a new-style class
    inherits is not a Python function.
   */
  function ClassRequest(cls: Value, fieldNames: Value, verbose: Value, rename: Value, docstring: Value): (r: Result<Request>)
    requires cls.Class?
    ensures r.Ok? <==> Truthy(fieldNames) || cls.init.PythonInit?
    ensures r.Err? && cls.init.NoInit? ==> r.error == AttributeError("__init__")
    ensures r.Err? && cls.init.SlotInit? ==> r.error.TypeError?
    ensures r.Ok? ==> r.value.name == Str(cls.name) && r.value.verbose == verbose && r.value.rename == rename
    ensures r.Ok? && Truthy(fieldNames) ==> r.value.fieldNames == fieldNames
    ensures r.Ok? && !Truthy(fieldNames) ==> r.value.fieldNames == NameList(DropFirst(cls.init.params))
    ensures r.Ok? && Truthy(docstring) ==> r.value.docstring == docstring
    ensures r.Ok? && !Truthy(docstring) ==> r.value.docstring == cls.doc
  {
    if Truthy(fieldNames) || cls.init.PythonInit? then
      var fields := if Truthy(fieldNames) then fieldNames else NameList(DropFirst(cls.init.params));
      Ok(Request(Str(cls.name), fields, verbose, rename, Or(docstring, cls.doc)))
    else if cls.init.NoInit? then
      Err(AttributeError("__init__"))
    else
      Err(TypeError("<slot wrapper '__init__' of 'object' objects> is not a Python function"))
  }

  /**
    `_function_decorator`: the type is named after the target's `__name__`;
    explicit field names win, otherwise all the function's parameters; an
    explicit docstring wins over the target's `__doc__`. Only a function has
    a parameter list; a generator has a `__name__` (and a `None` docstring),
    the other values have none.
   */
  function FunctionRequest(fn: Value, fieldNames: Value, verbose: Value, rename: Value, docstring: Value): (r: Result<Request>)
    requires !fn.Class?
    ensures r.Ok? <==> fn.Func? || (fn.Gen? && Truthy(fieldNames))
    ensures r.Ok? ==> r.value.name == Str(fn.name) && r.value.verbose == verbose && r.value.rename == rename
    ensures r.Ok? && Truthy(fieldNames) ==> r.value.fieldNames == fieldNames
    ensures r.Ok? && !Truthy(fieldNames) ==> r.value.fieldNames == NameList(fn.params)
    ensures r.Ok? && Truthy(docstring) ==> r.value.docstring == docstring
    ensures r.Ok? && !Truthy(docstring) && fn.Func? ==> r.value.docstring == fn.doc
    ensures r.Ok? && !Truthy(docstring) && fn.Gen? ==> r.value.docstring == NoneValue
    ensures r.Err? && !Truthy(fieldNames) ==> r.error.TypeError?
    ensures r.Err? && Truthy(fieldNames) ==> r.error == AttributeError("__name__")
  {
    if fn.Func? then
      Ok(Request(Str(fn.name), Or(fieldNames, NameList(fn.params)), verbose, rename, Or(docstring, fn.doc)))
    else if !Truthy(fieldNames) then
      Err(TypeError("arg is not a Python function"))
    else if fn.Gen? then
      Ok(Request(Str(fn.name), fieldNames, verbose, rename, Or(docstring, NoneValue)))
    else
      Err(AttributeError("__name__"))
  }

  /**
    `_decorator`: the class path for a class, the function path otherwise.
    It succeeds on functions, on generators given field names, and on
    classes given field names or with an `__init__` of their own; the
    request is named after the target and carries the deferred flags.
   */
  function DecoratorRequest(o: Value, d: Deferred): (r: Result<Request>)
    ensures r.Ok? <==>
      o.Func? || (o.Gen? && Truthy(d.fieldNames)) || (o.Class? && (Truthy(d.fieldNames) || o.init.PythonInit?))
    ensures r.Ok? ==> r.value.name == Str(o.name) && r.value.verbose == d.verbose && r.value.rename == d.rename
    ensures r.Ok? && Truthy(d.fieldNames) ==> r.value.fieldNames == d.fieldNames
    ensures r.Ok? && Truthy(d.docstring) ==> r.value.docstring == d.docstring
    ensures r.Err? && !o.Class? && !o.Func? && !o.Gen? && Truthy(d.fieldNames) ==> r.error == AttributeError("__name__")
    ensures r.Err? && o.Class? && o.init.NoInit? ==> r.error == AttributeError("__init__")
  {
    if o.Class? then ClassRequest(o, d.fieldNames, d.verbose, d.rename, d.docstring)
    else FunctionRequest(o, d.fieldNames, d.verbose, d.rename, d.docstring)
  }

  /**
    What decorating a function or class requests: the type is named after
    the target; field names come from the deferred call when given,
    otherwise from the target's parameters (minus `self` for a class); the
    docstring likewise; the flags pass through unchanged.
   */
  lemma DecoratorDerivation(o: Value, d: Deferred)
    requires o.Func? || (o.Class? && (Truthy(d.fieldNames) || o.init.PythonInit?))
    ensures var r := DecoratorRequest(o, d);
      && r.Ok?
      && r.value.name == Str(o.name)
      && r.value.verbose == d.verbose && r.value.rename == d.rename
      && (Truthy(d.fieldNames) ==> r.value.fieldNames == d.fieldNames)
      && (!Truthy(d.fieldNames) && o.Func? ==> r.value.fieldNames == NameList(o.params))
      && (!Truthy(d.fieldNames) && o.Class? ==> r.value.fieldNames == NameList(DropFirst(o.init.params)))
      && (Truthy(d.docstring) ==> r.value.docstring == d.docstring)
      && (!Truthy(d.docstring) ==> r.value.docstring == o.doc)
  {
  }

  /** What a call leads to: a request for the synthesiser, or a deferred decorator. */
  datatype Plan = Synthesise(request: Request) | Defer(deferred: Deferred)

  /** The flags the plain decorator paths pass: no field names, everything off. */
  const PlainDefaults: Deferred := Deferred(NoneValue, Bool(false), Bool(false), NoneValue)

  /**
    The body of `namedtuple` up to the call of `_namedtuple`: a refused
    keyword fails first; a lone function or class is turned into its
    request; a std-like call is bound to `_namedtuple`'s parameters; any
    other call is deferred.
   */
  function Resolve(args: seq<Value>, kwargs: Kwargs): (r: Result<Plan>)
    ensures CheckKwargs(kwargs).Err? ==> r == Err(CheckKwargs(kwargs).error)
    ensures r.Ok? ==> CheckKwargs(kwargs).Ok?
  {
    var shape :- Classify(args, kwargs);
    match shape
    case PlainClass(cls) =>
      var req :- ClassRequest(cls, NoneValue, Bool(false), Bool(false), NoneValue);
      Ok(Synthesise(req))
    case PlainFunction(fn) =>
      var req :- FunctionRequest(fn, NoneValue, Bool(false), Bool(false), NoneValue);
      Ok(Synthesise(req))
    case StdLike =>
      var req :- BindArgs(args, kwargs);
      Ok(Synthesise(req))
    case Parameterised(d) => Ok(Defer(d))
  }

  /** A lone class or function is turned into the request its decorator derives. */
  lemma ResolvePlainPaths(o: Value, kwargs: Kwargs)
    requires o.Class? || o.Func?
    requires CheckKwargs(kwargs).Ok?
    ensures var req := DecoratorRequest(o, PlainDefaults);
      && (Resolve([o], kwargs).Ok? <==> req.Ok?)
      && (req.Ok? ==> Resolve([o], kwargs) == Ok(Synthesise(req.value)))
      && (req.Err? ==> Resolve([o], kwargs) == Err(req.error))
  {
  }

  /**
    A std-like call synthesises exactly when Python binds it to
    `_namedtuple`'s parameters, and then requests the bound values.
   */
  lemma ResolveStdLike(args: seq<Value>, kwargs: Kwargs)
    requires CheckKwargs(kwargs).Ok?
    requires |args| > 1 && IsIterable(args[1])
    ensures Resolve(args, kwargs).Ok? <==> Bindable(args, kwargs)
    ensures Resolve(args, kwargs).Ok? ==> Resolve(args, kwargs).value == Synthesise(BoundRequest(args, kwargs))
  {
  }

  /**
    A call is deferred exactly when it takes the parameterised shape, and
    the partial holds the first positional (or None) and the keyword flags
    with their defaults.
   */
  lemma ResolveDefers(args: seq<Value>, kwargs: Kwargs)
    ensures Resolve(args, kwargs).Ok? && Resolve(args, kwargs).value.Defer? <==>
      Classify(args, kwargs).Ok? && Classify(args, kwargs).value.Parameterised?
    ensures Resolve(args, kwargs).Ok? && Resolve(args, kwargs).value.Defer? ==>
      Resolve(args, kwargs).value.deferred ==
        Deferred(if |args| > 0 then args[0] else NoneValue,
                 Get(kwargs, "verbose", Bool(false)),
                 Get(kwargs, "rename", Bool(false)),
                 Get(kwargs, "docstring", NoneValue))
  {
  }

  /** What `namedtuple` returns: a record type, or the deferred decorator. */
  datatype Returned = TypeResult(t: TypeObj) | PartialResult(deferred: Deferred)

  function AsReturned(r: Result<TypeObj>): Result<Returned> {
    match r
    case Ok(t) => Ok(TypeResult(t))
    case Err(e) => Err(e)
  }

  /** `namedtuple(*args, **kwargs)` */
  method Namedtuple(memo: Memoizer, args: seq<Value>, kwargs: Kwargs) returns (res: Result<Returned>)
    modifies memo, memo.wrapped
    ensures match Resolve(args, kwargs)
      case Err(e) => res == Err(e) && memo.State() == old(memo.State())
      case Ok(Defer(d)) => res == Ok(PartialResult(d)) && memo.State() == old(memo.State())
      case Ok(Synthesise(req)) =>
        var out := Synthesized(old(memo.State()), memo.wrapped.build, req);
        memo.State() == out.0 && res == AsReturned(out.1)
    ensures old(memo.Valid()) ==> memo.Valid()
  {
    var plan := Resolve(args, kwargs);
    match plan
    case Err(e) =>
      res := Err(e);
    case Ok(Defer(d)) =>
      res := Ok(PartialResult(d));
    case Ok(Synthesise(req)) =>
      var t := Synthesize(memo, req);
      res := AsReturned(t);
  }

  /** Applying the deferred decorator to the decorated function or class. */
  method ApplyDeferred(memo: Memoizer, d: Deferred, target: Value) returns (res: Result<TypeObj>)
    modifies memo, memo.wrapped
    ensures match DecoratorRequest(target, d)
      case Err(e) => res == Err(e) && memo.State() == old(memo.State())
      case Ok(req) => (memo.State(), res) == Synthesized(old(memo.State()), memo.wrapped.build, req)
    ensures old(memo.Valid()) ==> memo.Valid()
  {
    match DecoratorRequest(target, d)
    case Err(e) =>
      res := Err(e);
    case Ok(req) =>
      res := Synthesize(memo, req);
  }

  /**
    Because keywords are checked before anything else, a `field_names`
    keyword is always refused, although the shared std-like test would
    accept it.
   */
  lemma FieldNamesKeywordRejected(args: seq<Value>, kwargs: Kwargs)
    requires HasKey(kwargs, "field_names")
    ensures IsUsedLikeStdNamedtuple(args, kwargs)
    ensures Resolve(args, kwargs).Err? && Resolve(args, kwargs).error.TypeError?
  {
  }

  /** A single class argument takes the class path, although classes are callable. */
  lemma SingleClassTakesClassPath(cls: Value, kwargs: Kwargs)
    requires cls.Class?
    requires forall i :: 0 <= i < |kwargs| ==> kwargs[i].0 in SupportedKwargs
    ensures IsUsedAsPlainFunctionDecorator([cls])
    ensures Classify([cls], kwargs) == Ok(PlainClass(cls))
  {
  }

  /**
    On the plain paths the keywords are checked but otherwise ignored:
    `namedtuple(C, verbose=True)` builds exactly what `namedtuple(C)` builds.
   */
  lemma PlainPathIgnoresKeywords(o: Value, kwargs: Kwargs)
    requires o.Class? || o.Func?
    requires forall i :: 0 <= i < |kwargs| ==> kwargs[i].0 in SupportedKwargs
    ensures Resolve([o], kwargs) == Resolve([o], [])
  {
  }

  /**
    `@namedtuple` and `@namedtuple()` agree: the bare decorator builds the
    same request as the deferred decorator of an empty call applied to the
    same function or class.
   */
  lemma BareDecoratorMatchesEmptyCall(o: Value)
    requires o.Class? || o.Func?
    ensures Resolve([], []) == Ok(Defer(PlainDefaults))
    ensures match DecoratorRequest(o, PlainDefaults)
      case Ok(req) => Resolve([o], []) == Ok(Synthesise(req))
      case Err(e) => Resolve([o], []) == Err(e)
  {
  }

  /**
    A std-like call whose positionals and keywords do not clash binds the
    first two positionals as name and field names and takes the flags from
    the keywords, with `False`/`None` defaults.
   */
  lemma StdLikeBinding(name: Value, fieldNames: Value, kwargs: Kwargs)
    requires IsIterable(fieldNames)
    requires forall i :: 0 <= i < |kwargs| ==> kwargs[i].0 in SupportedKwargs
    ensures Resolve([name, fieldNames], kwargs) ==
      Ok(Synthesise(Request(name, fieldNames,
                            Get(kwargs, "verbose", Bool(false)),
                            Get(kwargs, "rename", Bool(false)),
                            Get(kwargs, "docstring", NoneValue))))
  {
    StdLikeBindsPositionalsFirst(name, fieldNames, kwargs);
    TwoPositionalsBound(name, fieldNames, kwargs);
  }

  /** With two positionals, the flags come from the keywords or their defaults. */
  lemma TwoPositionalsBound(name: Value, fieldNames: Value, kwargs: Kwargs)
    ensures BoundRequest([name, fieldNames], kwargs) ==
      Request(name, fieldNames, Get(kwargs, "verbose", Bool(false)),
              Get(kwargs, "rename", Bool(false)), Get(kwargs, "docstring", NoneValue))
  {
  }

  /** The keywords of such a call can only be flags, so binding succeeds. */
  lemma StdLikeBindsPositionalsFirst(name: Value, fieldNames: Value, kwargs: Kwargs)
    requires IsIterable(fieldNames)
    requires forall i :: 0 <= i < |kwargs| ==> kwargs[i].0 in SupportedKwargs
    ensures Resolve([name, fieldNames], kwargs) == Ok(Synthesise(BoundRequest([name, fieldNames], kwargs)))
  {
    assert Bindable([name, fieldNames], kwargs);
  }

  /** What `_isiterable` answers for the values the tests try. */
  lemma IterableExamples()
    ensures IsIterable(Seq([])) && IsIterable(Str("")) && IsIterable(Seq([Int(1), Int(2)])) && IsIterable(Gen("<genexpr>"))
    ensures !IsIterable(Func("f", [], NoneValue))
    ensures !IsIterable(Bool(true)) && !IsIterable(Bool(false))
    ensures !IsIterable(Int(1)) && !IsIterable(Int(0)) && !IsIterable(NoneValue)
  {
  }

  /** The keyword checks the tests make. */
  lemma CheckKwargsExamples()
    ensures CheckKwargs([("apples", Str("oranges"))]) == Err(TypeError(UnexpectedKeywordMessage("apples")))
    ensures CheckKwargs([("verbose", Bool(true)), ("apples", Str("oranges"))]).Err?
    ensures CheckKwargs([("rename", Bool(true)), ("verbose", Bool(true)), ("apples", Str("oranges"))]).Err?
    ensures CheckKwargs([]).Ok? && CheckKwargs([("verbose", Bool(true)), ("rename", Bool(true))]).Ok?
  {
  }

  /** `@namedtuple def Point3(x, y, z): "..."` requests `Point3` with fields x, y, z and that docstring. */
  lemma FunctionDecoratorExample(doc: string)
    requires doc != []
    ensures Resolve([Func("Point3", ["x", "y", "z"], Str(doc))], []) ==
      Ok(Synthesise(Request(Str("Point3"), NameList(["x", "y", "z"]), Bool(false), Bool(false), Str(doc))))
  {
  }

  /** `@namedtuple class Point3: def __init__(self, x, y, z)` drops `self` from the fields. */
  lemma ClassDecoratorExample(doc: string)
    requires doc != []
    ensures Resolve([Class("Point3", PythonInit(["self", "x", "y", "z"]), Str(doc), None)], []) ==
      Ok(Synthesise(Request(Str("Point3"), NameList(["x", "y", "z"]), Bool(false), Bool(false), Str(doc))))
  {
    assert DropFirst(["self", "x", "y", "z"]) == ["x", "y", "z"];
  }

  /**
    Five identical `namedtuple(name, fields, rename=True)` calls against a
    fresh cache invoke the record-type constructor exactly once.
   */
  method FiveIdenticalCalls(build: Builder, name: string, fields: string) returns (calls: nat)
    requires build(Request(Str(name), Str(fields), Bool(false), Bool(true), NoneValue)).Ok?
    ensures calls == 1
  {
    var ctor := new Constructor(build);
    var memo := new Memoizer(ctor);
    var args, kwargs := [Str(name), Str(fields)], [("rename", Bool(true))];
    ghost var req := Request(Str(name), Str(fields), Bool(false), Bool(true), NoneValue);
    StdLikeBinding(Str(name), Str(fields), kwargs);
    for i := 0 to 5
      invariant memo.wrapped == ctor
      invariant i == 0 ==> memo.cache == map[] && ctor.calls == 0
      invariant i > 0 ==> req in memo.cache && ctor.calls == 1
    {
      var t := Namedtuple(memo, args, kwargs);
    }
    calls := ctor.calls;
  }
}
