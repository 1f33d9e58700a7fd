/**
  The `namedtuple_decorator` entry point, the class-only sibling of
  `namedtuple3`: no keyword whitelist, no memoisation, and the standard
  library's `namedtuple` as the constructor. A call is a plain class
  decorator, a call forwarded unchanged to the constructor, or a decorator
  factory that remembers `verbose` and `rename`.
 */
module NamedTupleDecorator {
  import opened PyValues
  import opened CallShape

  /**
    The standard library's `namedtuple`, called with positional and keyword
    arguments: the record type it builds, or the exception it raises. It is
    opaque here; both the forwarding path and the decorator call it.
   */
  type Collections = (seq<Value>, Kwargs) -> Result<RecordType>

  /**
    `_get_verbose_rename`: the flags start from the keywords (default
    `False`); one positional replaces `verbose`, two replace both, and any
    other number of positionals leaves the keywords in force.
   */
  function VerboseRename(args: seq<Value>, kwargs: Kwargs): (r: (Value, Value))
    ensures 1 <= |args| <= 2 ==> r.0 == args[0]
    ensures |args| == 2 ==> r.1 == args[1]
    ensures (|args| == 0 || |args| > 2) ==> r.0 == Get(kwargs, "verbose", Bool(false))
    ensures |args| != 2 ==> r.1 == Get(kwargs, "rename", Bool(false))
  {
    var verbose := Get(kwargs, "verbose", Bool(false));
    var rename := Get(kwargs, "rename", Bool(false));
    if |args| == 1 then (args[0], rename)
    else if |args| == 2 then (args[0], args[1])
    else (verbose, rename)
  }

  /** `_is_used_as_plain_decorator`: exactly one positional, and it is a class. */
  predicate IsUsedAsPlainDecorator(args: seq<Value>, kwargs: Kwargs) {
    |args| == 1 && args[0].Class?
  }

  /** The three invocation shapes. */
  datatype Shape =
    | PlainDecorator(cls: Value)
    | Forward
    | Factory(verbose: Value, rename: Value)

  /** The dispatch of `namedtuple(*args, **kwargs)`, first match wins. */
  function Classify(args: seq<Value>, kwargs: Kwargs): (r: Shape)
    ensures r.PlainDecorator? <==> |args| == 1 && args[0].Class?
    ensures r.PlainDecorator? ==> r.cls == args[0]
    ensures r.Forward? <==> !r.PlainDecorator? && IsUsedLikeStdNamedtuple(args, kwargs)
    ensures r.Factory? ==> (r.verbose, r.rename) == VerboseRename(args, kwargs)
  {
    if IsUsedAsPlainDecorator(args, kwargs) then PlainDecorator(args[0])
    else if IsUsedLikeStdNamedtuple(args, kwargs) then Forward
    else
      var (verbose, rename) := VerboseRename(args, kwargs);
      Factory(verbose, rename)
  }

  /**
    The type the decorator returns: a subclass named after the decorated
    class, of the record type `base`, with `__doc__` set to `doc`.
   */
  datatype DecoratedType = DecoratedType(name: string, base: RecordType, doc: Value)

  /**
    The inner `decorator(verbose, rename, cls)`: it reads `cls.__name__`,
    then `cls._fields`, builds the record type from them positionally, and
    keeps the class's docstring when it is non-empty, otherwise the record
    type's own.
   */
  function Decorate(build: Collections, verbose: Value, rename: Value, cls: Value): (r: Result<DecoratedType>)
    ensures !cls.Func? && !cls.Gen? && !cls.Class? ==> r == Err(AttributeError("__name__"))
    ensures cls.Func? || cls.Gen? || (cls.Class? && cls.fields.None?) ==> r == Err(AttributeError("_fields"))
    ensures cls.Class? && cls.fields.Some? ==>
      var made := build([Str(cls.name), cls.fields.value, verbose, rename], []);
      && (r.Ok? <==> made.Ok?)
      && (r.Err? ==> r.error == made.error)
      && (r.Ok? ==> r.value.name == cls.name && r.value.base == made.value)
      && (r.Ok? && Truthy(cls.doc) ==> r.value.doc == cls.doc)
      && (r.Ok? && !Truthy(cls.doc) ==> r.value.doc == Str(made.value.doc))
  {
    if !cls.Func? && !cls.Gen? && !cls.Class? then Err(AttributeError("__name__"))
    else if !cls.Class? || cls.fields.None? then Err(AttributeError("_fields"))
    else
      var nt :- build([Str(cls.name), cls.fields.value, verbose, rename], []);
      Ok(DecoratedType(cls.name, nt, Or(cls.doc, Str(nt.doc))))
  }

  /**
    What `namedtuple` returns: a decorated type, the constructor's record
    type, or `functools.partial(decorator, verbose, rename)`.
   */
  datatype Returned =
    | NewType(t: DecoratedType)
    | Record(record: RecordType)
    | Partial(verbose: Value, rename: Value)

  /** `namedtuple(*args, **kwargs)` */
  function Namedtuple(build: Collections, args: seq<Value>, kwargs: Kwargs): (r: Result<Returned>)
    ensures |args| == 1 && args[0].Class? ==>
      r == (var d :- Decorate(build, Bool(false), Bool(false), args[0]); Ok(NewType(d)))
    ensures !(|args| == 1 && args[0].Class?) && IsUsedLikeStdNamedtuple(args, kwargs) ==>
      r == (var t :- build(args, kwargs); Ok(Record(t)))
    ensures !(|args| == 1 && args[0].Class?) && !IsUsedLikeStdNamedtuple(args, kwargs) ==>
      r == Ok(Partial(VerboseRename(args, kwargs).0, VerboseRename(args, kwargs).1))
  {
    match Classify(args, kwargs)
    case PlainDecorator(cls) =>
      var d :- Decorate(build, Bool(false), Bool(false), cls);
      Ok(NewType(d))
    case Forward =>
      var t :- build(args, kwargs);
      Ok(Record(t))
    case Factory(verbose, rename) => Ok(Partial(verbose, rename))
  }

  /** With no positionals and no keywords both flags are `False`. */
  lemma NoArgumentsMeansFlagsOff()
    ensures VerboseRename([], []) == (Bool(false), Bool(false))
  {
  }

  /**
    Positionals take precedence over keywords: with one positional the
    `verbose` keyword is irrelevant, with two positionals all keywords are.
   */
  lemma PositionalsOverrideKeywords(args: seq<Value>, kw1: Kwargs, kw2: Kwargs)
    ensures |args| == 1 ==> VerboseRename(args, kw1).0 == VerboseRename(args, kw2).0
    ensures |args| == 1 && Get(kw1, "rename", Bool(false)) == Get(kw2, "rename", Bool(false)) ==>
      VerboseRename(args, kw1) == VerboseRename(args, kw2)
    ensures |args| == 2 ==> VerboseRename(args, kw1) == VerboseRename(args, kw2)
  {
  }

  /** The flag extractions the tests perform. */
  lemma VerboseRenameExamples()
    ensures VerboseRename([], [("verbose", Bool(true))]) == (Bool(true), Bool(false))
    ensures VerboseRename([], [("rename", Bool(true))]) == (Bool(false), Bool(true))
    ensures VerboseRename([Bool(false)], [("rename", Bool(true))]) == (Bool(false), Bool(true))
    ensures VerboseRename([Bool(true), Bool(false)], []) == (Bool(true), Bool(false))
    ensures VerboseRename([], [("rename", Bool(true)), ("verbose", Bool(false))]) == (Bool(false), Bool(true))
  {
  }

  /**
    A single class is decorated however the keywords look, even when one
    of them is `field_names`: the plain-decorator test comes first and
    ignores keywords.
   */
  lemma PlainDecoratorIgnoresKeywords(build: Collections, cls: Value, kwargs: Kwargs)
    requires cls.Class?
    ensures Classify([cls], kwargs) == PlainDecorator(cls)
    ensures Namedtuple(build, [cls], kwargs) == Namedtuple(build, [cls], [])
  {
  }

  /**
    `@namedtuple` and `@namedtuple()` agree: the bare decorator builds what
    the partial returned by an empty call builds from the same class.
   */
  lemma BareDecoratorMatchesEmptyCall(build: Collections, cls: Value)
    requires cls.Class?
    ensures Namedtuple(build, [], []) == Ok(Partial(Bool(false), Bool(false)))
    ensures var p := Namedtuple(build, [], []).value;
      match Decorate(build, p.verbose, p.rename, cls)
      case Ok(d) => Namedtuple(build, [cls], []) == Ok(NewType(d))
      case Err(e) => Namedtuple(build, [cls], []) == Err(e)
  {
  }

  /**
    A std-like call reaches the constructor with exactly the arguments it
    was given, and returns what the constructor returns.
   */
  lemma StdLikeForwardsUnchanged(build: Collections, args: seq<Value>, kwargs: Kwargs)
    requires |args| > 1 && IsIterable(args[1])
    ensures build(args, kwargs).Ok? ==> Namedtuple(build, args, kwargs) == Ok(Record(build(args, kwargs).value))
    ensures build(args, kwargs).Err? ==> Namedtuple(build, args, kwargs) == Err(build(args, kwargs).error)
  {
  }

  /**
    A bare function is not a plain decorator target here: it becomes the
    `verbose` flag of a decorator factory, and decorating with that factory
    then fails for want of `_fields` unless the target is a class.
   */
  lemma BareFunctionBecomesVerboseFlag(build: Collections, fn: Value)
    requires fn.Func?
    ensures Namedtuple(build, [fn], []) == Ok(Partial(fn, Bool(false)))
  {
  }

  /**
    The class's docstring survives decoration:
    `@namedtuple class Point: '''an element of some set called a space'''`
    keeps that text, while a class without one gets the record type's
    default docstring `Point(x, y)`.
   */
  lemma DocstringExamples(build: Collections)
    requires build([Str("Point"), Str("x y"), Bool(false), Bool(false)], []) ==
      Ok(RecordType("Point", ["x", "y"], "Point(x, y)"))
    ensures var documented := Class("Point", NoInit, Str("an element of some set called a space"), Some(Str("x y")));
      Namedtuple(build, [documented], []) ==
        Ok(NewType(DecoratedType("Point", RecordType("Point", ["x", "y"], "Point(x, y)"),
                                 Str("an element of some set called a space"))))
    ensures var bare := Class("Point", NoInit, NoneValue, Some(Str("x y")));
      Namedtuple(build, [bare], []) ==
        Ok(NewType(DecoratedType("Point", RecordType("Point", ["x", "y"], "Point(x, y)"), Str("Point(x, y)"))))
  {
  }
}
