# namedtuple2 in Dafny

A model of the logic that the two `namedtuple` replacements of the
namedtuple2 repository wrap around Python's record-type constructor, with
proofs of what that logic promises.

- `namedtuple3` accepts four call shapes, tried in order, first match wins:
  - a plain class decorator (`@namedtuple class C`);
  - a plain function decorator (`@namedtuple def f(x, y)`);
  - a call like the standard library's (`namedtuple('P', 'x y')`);
  - a parameterised decorator (`@namedtuple('x y', rename=True)`), which
    returns a `functools.partial`.

  Before any of these it refuses keywords other than `rename`, `verbose` and
  `docstring`. It derives the type name, field names and docstring from the
  decorated target. It memoises the underlying constructor, except when
  `verbose` is set. It also has an identifier-safe substitution on base32
  text.
- `namedtuple_decorator` is a class-only sibling. It has no keyword check
  and no cache. It forwards standard-style calls unchanged to
  `collections.namedtuple`. A parameterised call takes `verbose` and
  `rename` from its positional or keyword arguments.

Modules:

- `PyValues` — Python values as an abstract datatype, standing in for
  runtime reflection. It also holds truthiness, `x or y`, `dict.get`, the
  `Result` of a call that may raise, and keyword arguments as a list of
  pairs.
- `CallShape` — the "used like the standard namedtuple" test, shared by both
  implementations.
- `IdentifierBase32` — the character maps of `_b32encode_no_digits` and
  `_b32decode_no_digits`.
- `Synthesis` — the record-type constructor. It is opaque here: a function
  from request to result, wrapped in a `Constructor` class that counts its
  calls. The module also holds the `memoize` cache as a `Memoizer` class
  with a `map` field, and `_namedtuple`. Each method is proved against a pure
  state-transition function (`MemoCall`, `Synthesized`). The properties are
  proved about those functions.
- `NamedTuple3` — keyword checking, classification, binding of
  `_namedtuple(*args, **kwargs)`, the class and function decorator helpers,
  and the entry point as a method over the memoiser.
- `NamedTupleDecorator` — the sibling entry point. It is pure; the
  constructor is a function parameter.

Python's keyword arguments become a list of pairs with distinct keys.
Python 2 passes them as an unordered dict; the list fixes one arbitrary
order, and no property proved here depends on which. Strings and classes
follow Python 2: ASCII digits and letters, and old-style classes beside
new-style ones.

The code and its own docstrings disagree in one place. The docstrings of
the plain-decorator tests (namedtuple3/_namedtuple3_impl.py:87-88 and
99-100) describe use "without parameters". The code, however, accepts a
lone class or function together with keywords: it checks them against the
whitelist and then ignores them. The model follows the code;
`PlainPathIgnoresKeywords` states it.

## Model

| member | source | states |
|---|---|---|
| `PyValues.IsIterable` | namedtuple3/_namedtuple3_impl.py:64-72 | `iter(v)` succeeds on strings, lists, tuples and generators only (the same test as namedtuple_decorator/_namedtuple_decorator_impl.py:14-19) |
| `PyValues.IsCallable` | namedtuple3/_namedtuple3_impl.py:94 | `callable(v)` holds of functions and classes |
| `CallShape.IsUsedLikeStdNamedtuple` | namedtuple3/_namedtuple3_impl.py:75-82 | a `field_names` keyword, or two or more positionals with an iterable second; the same test as namedtuple_decorator/_namedtuple_decorator_impl.py:36-37 |
| `PyValues.Get` | namedtuple3/_namedtuple3_impl.py:189-191 | `kwargs.get(key, default)` is the default when the key is absent, otherwise a value passed under that key |
| `PyValues.FirstViolation` | namedtuple3/_namedtuple3_impl.py:143-147 | no result exactly when every keyword is allowed; a result is a keyword that was passed and is not allowed |
| `IdentifierBase32.EncodeChar` | namedtuple3/_namedtuple3_impl.py:18 | the output is never a digit or `=`; digit d becomes the d-th letter from `a`, `=` becomes `_`, every other character is kept |
| `IdentifierBase32.DecimalString` | namedtuple3/_namedtuple3_impl.py:25 | `str(n)` is a run of digits denoting `n`, without a leading zero: one digit below ten, at least two from ten on |
| `IdentifierBase32.DecodeChar` | namedtuple3/_namedtuple3_impl.py:25 | `_` becomes `=`; a lower-case letter becomes digits denoting its distance from `a` (one digit for `a`..`j`, two for `k`..`z`); every other character is kept |
| `IdentifierBase32.EncodeNoDigits` | namedtuple3/_namedtuple3_impl.py:17-20 | same length as the input, no digits and no `=`, character by character the encoding map |
| `IdentifierBase32.DecodeNoDigits` | namedtuple3/_namedtuple3_impl.py:24-27 | the decoded text is never shorter than its input |
| `IdentifierBase32.DecodeEncodeChar` | namedtuple3/_namedtuple3_impl.py:15-28 | decoding undoes encoding on any character that is not lower-case and not `_` |
| `IdentifierBase32.DecodeEncode` | namedtuple3/_namedtuple3_impl.py:15-28 | decode after encode is the identity on every text without lower-case letters or `_` |
| `IdentifierBase32.Base32RoundTrip` | namedtuple3/_namedtuple3_impl.py:15-28 | on base32 output (A–Z, 2–7, `=`) the round trip holds and the encoded text has only letters and `_` |
| `IdentifierBase32.EncodeInjective` | namedtuple3/_namedtuple3_impl.py:17-20 | two such texts with the same encoding are equal |
| `Synthesis.MemoCall` | namedtuple3/_namedtuple3_impl.py:37-41 | a hit returns the stored type without a call; a miss calls the constructor once and stores a successful result under the key; other entries stay unchanged and the key set grows by at most that key |
| `Synthesis.Synthesized` | namedtuple3/_namedtuple3_impl.py:54-61 | verbose: one direct constructor call, cache untouched; otherwise the memoised call's state and result |
| `Synthesis.MemoCallKeepsCacheSound` | namedtuple3/_namedtuple3_impl.py:38-41 | every cached entry stays the constructor's result for its key, built before the current call count |
| `Synthesis.SynthesizedKeepsCacheSound` | namedtuple3/_namedtuple3_impl.py:58-61 | both paths of `_namedtuple` keep the cache sound |
| `Synthesis.VerboseBuildsFreshType` | namedtuple3/_namedtuple3_impl.py:58-59 | a verbose request returns a type that is not any cached type, even one cached for the same arguments |
| `Synthesis.Repeat` | namedtuple3/_namedtuple3_impl.py:54-61 | n identical requests give n results |
| `Synthesis.RepeatedRequestsBuildOnce` | namedtuple3/_namedtuple3_impl.py:37-41 | n identical non-verbose requests: a cached key changes nothing and always returns the cached type; an unseen key that builds calls the constructor exactly once and every result is that one type; a key that raises caches nothing and calls the constructor n times |
| `Synthesis.Constructor.Build` | namedtuple3/_namedtuple3_impl.py:51 | one constructor call: the counter goes up by one and the result is that call's `Construct` |
| `Synthesis.Memoizer.constructor` | namedtuple3/_namedtuple3_impl.py:35 | a fresh memoiser starts with an empty cache, which is sound |
| `Synthesis.Memoizer.Call` | namedtuple3/_namedtuple3_impl.py:37-41 | the new cache, call count and result are those of `MemoCall`; a sound cache stays sound |
| `Synthesis.Synthesize` | namedtuple3/_namedtuple3_impl.py:54-61 | the new state and result are those of `Synthesized`; a sound cache stays sound |
| `NamedTuple3.CheckKwargs` | namedtuple3/_namedtuple3_impl.py:140-148 | passes exactly when every keyword is `rename`, `verbose` or `docstring`; otherwise a TypeError naming an offending keyword that was passed |
| `NamedTuple3.IsUsedAsPlainFunctionDecorator` | namedtuple3/_namedtuple3_impl.py:85-94 | exactly one positional, and it is callable |
| `NamedTuple3.IsUsedAsPlainClassDecorator` | namedtuple3/_namedtuple3_impl.py:97-107 | exactly one positional, and it is a class; every such call also passes the function test |
| `NamedTuple3.Classify` | namedtuple3/_namedtuple3_impl.py:169-196 | keyword failure first; then class iff one class argument, function iff one function argument, std-like iff two or more positionals with an iterable second, otherwise a deferred call holding `args[0]` or None and the keyword flags with defaults |
| `NamedTuple3.ParamIndex` | namedtuple3/_namedtuple3_impl.py:54 | each parameter of `_namedtuple` gets its own position in `(name, field_names, verbose, rename, docstring)`; every other name gets 5 |
| `NamedTuple3.Bindable` | namedtuple3/_namedtuple3_impl.py:54 | Python binds a call to `_namedtuple` when there are at most five positionals, every keyword names a parameter no positional fills, and `name` and `field_names` are both supplied |
| `NamedTuple3.BoundRequest` | namedtuple3/_namedtuple3_impl.py:54 | each parameter takes its positional, else its keyword, else its default |
| `NamedTuple3.BindArgs` | namedtuple3/_namedtuple3_impl.py:54 | binding succeeds exactly when Python binds the call to `_namedtuple`; then each parameter is its positional, else its keyword, else its default; failures are TypeErrors |
| `NamedTuple3.ClassRequest` | namedtuple3/_namedtuple3_impl.py:110-117 | named after the class; explicit field names win over `__init__`'s parameters without `self`; explicit docstring wins over `__doc__`; without field names, an old-style class lacking `__init__` raises AttributeError and a class with only `object`'s `__init__` raises TypeError |
| `NamedTuple3.FunctionRequest` | namedtuple3/_namedtuple3_impl.py:120-126 | succeeds for functions, and for generators when field names are given: named after the target, with explicit field names or else all the function's parameters, and the explicit docstring or else the target's `__doc__`; otherwise a TypeError without field names, an AttributeError on `__name__` with them |
| `NamedTuple3.DecoratorRequest` | namedtuple3/_namedtuple3_impl.py:129-137 | succeeds exactly on a function, a generator given field names, or a class given field names or with its own `__init__`; the request is named after the target, carries the deferred flags, and takes the deferred field names and docstring when they are given; a value with no `__name__` raises AttributeError on it, an old-style class without `__init__` on `__init__` |
| `NamedTuple3.DecoratorDerivation` | namedtuple3/_namedtuple3_impl.py:110-137 | decorating a function, or a class with field names or an `__init__`, succeeds with the target's name, explicit field names or those derived from the target, the explicit docstring or the target's, and the flags unchanged |
| `NamedTuple3.Resolve` | namedtuple3/_namedtuple3_impl.py:169-196 | a refused keyword fails the call before anything else, and a call that gets further passed the keyword check |
| `NamedTuple3.ResolvePlainPaths` | namedtuple3/_namedtuple3_impl.py:171-181 | a lone class or function (with whitelisted keywords) yields exactly the request, or the exception, of its decorator with no field names, flags off and no docstring |
| `NamedTuple3.ResolveStdLike` | namedtuple3/_namedtuple3_impl.py:183-185 | a std-like call synthesises exactly when it binds to `_namedtuple`, and then requests the bound values |
| `NamedTuple3.ResolveDefers` | namedtuple3/_namedtuple3_impl.py:187-196 | a call is deferred exactly when it takes the parameterised shape, and the partial holds `args[0]` (or None when there is none), the `verbose` and `rename` keywords (default False) and the `docstring` keyword (default None) |
| `NamedTuple3.Namedtuple` | namedtuple3/_namedtuple3_impl.py:151-196 | a refused or deferred call leaves cache and counter untouched; a synthesised one changes them as `Synthesized` does, and returns its result |
| `NamedTuple3.ApplyDeferred` | namedtuple3/_namedtuple3_impl.py:129-137 | calling the partial: a failed derivation changes nothing; otherwise the state and result are those of `Synthesized` |
| `NamedTuple3.FieldNamesKeywordRejected` | namedtuple3/_namedtuple3_impl.py:169 | a `field_names` keyword makes the call std-like but is refused with a TypeError first |
| `NamedTuple3.SingleClassTakesClassPath` | namedtuple3/_namedtuple3_impl.py:172-181 | a single class is callable, yet it takes the class path |
| `NamedTuple3.PlainPathIgnoresKeywords` | namedtuple3/_namedtuple3_impl.py:172-181 | on the plain paths, whitelisted keywords change nothing |
| `NamedTuple3.BareDecoratorMatchesEmptyCall` | namedtuple3/_namedtuple3_impl.py:172-196 | `@namedtuple` requests what the partial of `namedtuple()` requests for the same target |
| `NamedTuple3.StdLikeBinding` | namedtuple3/_namedtuple3_impl.py:184-185 | a two-positional std-like call with whitelisted keywords requests exactly name, field names and the keyword flags with their defaults |
| `NamedTuple3.StdLikeBindsPositionalsFirst` | namedtuple3/_namedtuple3_impl.py:184-185 | such a call always binds |
| `NamedTuple3.TwoPositionalsBound` | namedtuple3/_namedtuple3_impl.py:54 | with two positionals the flags come from the keywords or the defaults |
| `NamedTuple3.IterableExamples` | namedtuple3/test/test_namedtuple3.py:85-95 | strings, lists, tuples and generators are iterable; functions, booleans, integers and None are not |
| `NamedTuple3.CheckKwargsExamples` | namedtuple3/test/test_namedtuple3.py:184-201 | `apples` is refused, alone or beside whitelisted keywords; no keywords or whitelisted ones pass |
| `NamedTuple3.FunctionDecoratorExample` | namedtuple3/test/test_namedtuple3.py:264-270 | `@namedtuple def Point3(x, y, z)` requests `Point3` with fields x, y, z and the function's docstring |
| `NamedTuple3.ClassDecoratorExample` | namedtuple3/test/test_namedtuple3.py:306-314 | `@namedtuple class Point3` with `__init__(self, x, y, z)` requests fields x, y, z and the class's docstring |
| `NamedTuple3.FiveIdenticalCalls` | namedtuple3/test/test_namedtuple3.py:206-225 | when the constructor succeeds on the request, five identical `namedtuple(name, fields, rename=True)` calls on a fresh memoiser call it exactly once |
| `NamedTupleDecorator.VerboseRename` | namedtuple_decorator/_namedtuple_decorator_impl.py:22-33 | one or two positionals give `verbose`, two also give `rename`; otherwise each flag is its keyword or `False` |
| `NamedTupleDecorator.IsUsedAsPlainDecorator` | namedtuple_decorator/_namedtuple_decorator_impl.py:40-41 | exactly one positional, and it is a class; keywords play no part |
| `NamedTupleDecorator.Classify` | namedtuple_decorator/_namedtuple_decorator_impl.py:36-41 | plain decorator iff one class argument; otherwise forwarded iff std-like; otherwise a factory holding the extracted flags |
| `NamedTupleDecorator.Decorate` | namedtuple_decorator/_namedtuple_decorator_impl.py:136-139 | a value without `__name__` raises AttributeError on it, and a function, generator or class without `_fields` on `_fields`; a class with `_fields` yields a type named after it over the constructor's record type (or the constructor's exception), keeping the class's docstring if non-empty, else the record type's |
| `NamedTupleDecorator.Namedtuple` | namedtuple_decorator/_namedtuple_decorator_impl.py:141-152 | plain class: the decorated type with flags off; std-like: the constructor's result for the same arguments; otherwise the partial with the extracted flags |
| `NamedTupleDecorator.NoArgumentsMeansFlagsOff` | namedtuple_decorator/_namedtuple_decorator_impl.py:24-33 | no arguments give `(False, False)` |
| `NamedTupleDecorator.PositionalsOverrideKeywords` | namedtuple_decorator/_namedtuple_decorator_impl.py:27-31 | one positional makes the `verbose` keyword irrelevant, two make all keywords irrelevant |
| `NamedTupleDecorator.VerboseRenameExamples` | namedtuple_decorator/test/test_namedtuple_decorator.py:87-145 | the flag pairs the tests expect, keyword or positional |
| `NamedTupleDecorator.PlainDecoratorIgnoresKeywords` | namedtuple_decorator/_namedtuple_decorator_impl.py:40-41 | a single class is decorated whatever the keywords, `field_names` included |
| `NamedTupleDecorator.BareDecoratorMatchesEmptyCall` | namedtuple_decorator/_namedtuple_decorator_impl.py:141-152 | `@namedtuple` builds what the partial of `namedtuple()` builds for the same class |
| `NamedTupleDecorator.StdLikeForwardsUnchanged` | namedtuple_decorator/_namedtuple_decorator_impl.py:146-147 | a std-like call returns the constructor's result, or its exception, for exactly the given arguments |
| `NamedTupleDecorator.BareFunctionBecomesVerboseFlag` | namedtuple_decorator/_namedtuple_decorator_impl.py:141-152 | a lone function is not decorated: it becomes the `verbose` flag of a partial |
| `NamedTupleDecorator.DocstringExamples` | namedtuple_decorator/_namedtuple_decorator_impl.py:117-122 | a class docstring survives decoration; without one the record type's default `Point(x, y)` is used |

## Left out

- The record-type constructor (`_original_namedtuple`, `collections.namedtuple`) is not part of this model. It is a function parameter, so identifier validation, the rename rule, class-source generation and the printing that `verbose` causes are not modelled.
- `pickle` and `base64` are not modelled: only the character maps are, with the base32 alphabet of RFC 4648, section 6, taken as a precondition.
- Runtime reflection (`iter`, `callable`, `inspect.isclass`, `inspect.getargspec`, attribute lookup) becomes inspection of the value datatype. Objects with a custom `__iter__` or `__call__` are not represented.
- The cache key `str(args) + str(kwargs)` becomes structural equality of the request. Collisions between different values that print alike are not modelled. Neither is the fact that two distinct generator objects print differently, nor that a list and a tuple with the same items print differently: both are `Seq` here, so they share a key in the model while they are two keys in the source.
- `NamedTuple3.CheckKwargs`: the source names whichever offending keyword `set.pop` yields. The contract only promises some offending keyword that was passed.
- `NamedTuple3.BindArgs`: when a call breaks several binding rules at once, the model picks one TypeError message. Python's choice among them is not modelled. Only the exception type is promised.
- `NamedTuple3.FunctionRequest`: of the values that are not functions, only generators carry a `__name__`. Modules, methods and other objects with their own `__name__` are not represented. The TypeError messages of `getargspec` are approximated.
- `NamedTuple3.ClassRequest`: the TypeError message for a class whose `__init__` is `object`'s slot is approximated; an old-style class whose only `__init__` is inherited from an old-style base counts as having a Python `__init__`.
- `NamedTupleDecorator.Decorate`: the `type(name, (nt,), {...})` subclass is only its name, base record type and docstring. Runtime type identity and methods lost from the class are not modelled. A function with a `_fields` attribute is not represented.
- `NamedTupleDecorator`'s memoisation is absent: that module has no cache.
- Some decorator tests exercise names and behaviour that module lacks: `_is_used_as_plain_*_decorator`, function decoration, and function-return-derived fields. These are not modelled. `BareFunctionBecomesVerboseFlag` states what the code does with a lone function.
- The verbose-output checks of the tests are not modelled, and neither is the CSV reader example. Both are I/O.

