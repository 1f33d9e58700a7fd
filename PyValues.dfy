/**
  The Python values that the namedtuple entry points inspect, as an abstract
  datatype. Runtime reflection (`iter`, `callable`, `inspect.isclass`,
  `inspect.getargspec`, `__name__`, `__doc__`) becomes structural inspection
  of this datatype.
 */
module PyValues {

  datatype Option<+T> = None | Some(value: T)

  /** The exceptions the core raises or lets through from its collaborators. */
  datatype Exception =
    | TypeError(msg: string)
    | AttributeError(attr: string)

  datatype Result<+T> = Ok(value: T) | Err(error: Exception) {
    predicate IsFailure() { Err? }

    function PropagateFailure<U>(): Result<U>
      requires Err?
    {
      Err(error)
    }

    function Extract(): T
      requires Ok?
    {
      value
    }
  }

  /**
    A Python value as far as the entry points can tell values apart.
    - `Seq` stands for lists and tuples, `Gen` for a generator object with
      its `__name__` (a generator's `__doc__` is `None`).
    - `Func` is a plain function: its `__name__`, the parameter names
      `getargspec` reports and its `__doc__`.
    - `Class` is a class: its `__name__`, what `cls.__init__` is, its
      `__doc__` and its `_fields` attribute if it has one.
   */
  datatype Value =
    | Str(s: string)
    | Seq(items: seq<Value>)
    | Gen(name: string)
    | Bool(b: bool)
    | Int(i: int)
    | NoneValue
    | Func(name: string, params: seq<string>, doc: Value)
    | Class(name: string, init: Init, doc: Value, fields: Option<Value>)

  /**
    What `cls.__init__` finds on a Python 2 class: a Python function with
    these parameter names (including `self`), the built-in slot a
    new-style class inherits from `object`, or nothing at all on an
    old-style class that defines no `__init__`.
   */
  datatype Init = PythonInit(params: seq<string>) | SlotInit | NoInit

  /** Python truthiness, as used by `x or y` and `if x:`. */
  predicate Truthy(v: Value) {
    match v
    case Str(s) => s != []
    case Seq(items) => items != []
    case Gen(_) => true
    case Bool(b) => b
    case Int(i) => i != 0
    case NoneValue => false
    case Func(_, _, _) => true
    case Class(_, _, _, _) => true
  }

  /** `x or y`: the first operand when it is truthy, otherwise the second. */
  function Or(x: Value, y: Value): Value {
    if Truthy(x) then x else y
  }

  /** Whether `iter(v)` succeeds: strings, lists, tuples and generators. */
  predicate IsIterable(v: Value) {
    v.Str? || v.Seq? || v.Gen?
  }

  /** Whether `callable(v)` holds: functions and classes. */
  predicate IsCallable(v: Value) {
    v.Func? || v.Class?
  }

  /** A list of parameter names as the Python list `getargspec(...).args`. */
  function NameList(names: seq<string>): Value {
    Seq(seq(|names|, i requires 0 <= i < |names| => Str(names[i])))
  }

  /** Python's slice `xs[1:]`, which is empty on an empty list. */
  function DropFirst<T>(xs: seq<T>): seq<T> {
    if |xs| == 0 then [] else xs[1..]
  }

  /**
    Keyword arguments as a list of pairs with distinct keys. Python 2 passes
    them as an unordered dict; the list fixes one arbitrary order, and no
    property proved here depends on which.
   */
  type Kwargs = seq<(string, Value)>

  /** `key in kwargs` */
  predicate HasKey(kwargs: Kwargs, key: string) {
    exists i :: 0 <= i < |kwargs| && kwargs[i].0 == key
  }

  /** `kwargs.get(key, default)` */
  function Get(kwargs: Kwargs, key: string, default: Value): (v: Value)
    ensures !HasKey(kwargs, key) ==> v == default
    ensures HasKey(kwargs, key) ==> exists i :: 0 <= i < |kwargs| && kwargs[i] == (key, v)
  {
    if |kwargs| == 0 then default
    else if kwargs[0].0 == key then kwargs[0].1
    else
      var v := Get(kwargs[1..], key, default);
      assert HasKey(kwargs, key) ==> HasKey(kwargs[1..], key) by {
        if HasKey(kwargs, key) {
          var i :| 0 <= i < |kwargs| && kwargs[i].0 == key;
          assert kwargs[1..][i - 1].0 == key;
        }
      }
      v
  }

  /**
    The first keyword, in the list's order, that `allowed` refuses, or
    `None` when it accepts every keyword.
   */
  function FirstViolation(kwargs: Kwargs, allowed: string -> bool): (r: Option<string>)
    ensures r.None? <==> forall i :: 0 <= i < |kwargs| ==> allowed(kwargs[i].0)
    ensures r.Some? ==> !allowed(r.value) && HasKey(kwargs, r.value)
  {
    if |kwargs| == 0 then None
    else if !allowed(kwargs[0].0) then Some(kwargs[0].0)
    else
      var r := FirstViolation(kwargs[1..], allowed);
      assert r.Some? ==> HasKey(kwargs, r.value) by {
        if r.Some? {
          var i :| 0 <= i < |kwargs[1..]| && kwargs[1..][i].0 == r.value;
          assert kwargs[i + 1].0 == r.value;
        }
      }
      assert r.None? ==> forall i :: 0 <= i < |kwargs| ==> allowed(kwargs[i].0) by {
        if r.None? {
          forall i | 0 <= i < |kwargs| ensures allowed(kwargs[i].0) {
            if i > 0 { assert kwargs[i] == kwargs[1..][i - 1]; }
          }
        }
      }
      r
  }

  /** The constructor's product: a record type's name, fields and `__doc__`. */
  datatype RecordType = RecordType(name: string, fields: seq<string>, doc: string)
}
