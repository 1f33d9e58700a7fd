/**
  The memoising type synthesiser: `_original_namedtuple` (the record-type
  constructor, opaque here and instrumented with a call counter), the
  `memoize` decorator's cache, and `_namedtuple`, which bypasses the cache
  when `verbose` is set.
 */
module Synthesis {
  import opened PyValues

  /** The positional arguments `_namedtuple` passes on; also the cache key. */
  datatype Request = Request(name: Value, fieldNames: Value, verbose: Value, rename: Value, docstring: Value)

  /**
    A type object returned by the constructor. `serial` is the number of
    constructor calls made before the one that built it, so two different
    calls never return the same object.
   */
  datatype TypeObj = TypeObj(record: RecordType, serial: nat)

  /**
    What the constructor does with a request: the record type it builds, or
    the exception it raises (a bad field name when renaming is off, say).
   */
  type Builder = Request -> Result<RecordType>

  /** One constructor call, the `calls`-th, for request `r`. */
  function Construct(build: Builder, calls: nat, r: Request): Result<TypeObj> {
    match build(r)
    case Ok(record) => Ok(TypeObj(record, calls))
    case Err(e) => Err(e)
  }

  /** The memoiser's cache together with the constructor's call counter. */
  datatype MemoState = MemoState(cache: map<Request, TypeObj>, calls: nat)

  /**
    Every cached entry is what the constructor built for that key, built
    before the current call count.
   */
  ghost predicate CacheSound(s: MemoState, build: Builder) {
    forall k :: k in s.cache ==>
      build(k).Ok? && s.cache[k].record == build(k).value && s.cache[k].serial < s.calls
  }

  /**
    One call of the memoised constructor: a cached key is answered from the
    cache without calling the constructor; an unseen key calls it once and
    stores what it returns, unless it raised. No entry is ever overwritten or
    removed.
   */
  function MemoCall(s: MemoState, build: Builder, r: Request): (out: (MemoState, Result<TypeObj>))
    ensures out.0.cache.Keys == s.cache.Keys + (if out.1.Ok? then {r} else {})
    ensures forall k :: k in s.cache ==> out.0.cache[k] == s.cache[k]
    ensures r in s.cache ==> out.0.calls == s.calls && out.1 == Ok(s.cache[r])
    ensures r !in s.cache ==> out.0.calls == s.calls + 1 && out.1 == Construct(build, s.calls, r)
    ensures out.1.Ok? ==> out.0.cache[r] == out.1.value
  {
    if r in s.cache then (s, Ok(s.cache[r]))
    else
      match Construct(build, s.calls, r)
      case Ok(t) => (MemoState(s.cache[r := t], s.calls + 1), Ok(t))
      case Err(e) => (MemoState(s.cache, s.calls + 1), Err(e))
  }

  /**
    `_namedtuple`: with a truthy `verbose` the constructor is called directly
    and the cache is left alone; otherwise the memoised constructor answers.
   */
  function Synthesized(s: MemoState, build: Builder, r: Request): (out: (MemoState, Result<TypeObj>))
    ensures Truthy(r.verbose) ==> out.0.cache == s.cache && out.0.calls == s.calls + 1
    ensures Truthy(r.verbose) ==> (out.1.Ok? <==> build(r).Ok?)
    ensures Truthy(r.verbose) && out.1.Ok? ==> out.1.value == TypeObj(build(r).value, s.calls)
    ensures Truthy(r.verbose) && out.1.Err? ==> out.1.error == build(r).error
    ensures !Truthy(r.verbose) ==> out == MemoCall(s, build, r)
  {
    if Truthy(r.verbose) then (MemoState(s.cache, s.calls + 1), Construct(build, s.calls, r))
    else MemoCall(s, build, r)
  }

  /** The memoised constructor keeps the cache sound. */
  lemma MemoCallKeepsCacheSound(s: MemoState, build: Builder, r: Request)
    requires CacheSound(s, build)
    ensures CacheSound(MemoCall(s, build, r).0, build)
  {
    var t := MemoCall(s, build, r).0;
    forall k | k in t.cache
      ensures build(k).Ok? && t.cache[k].record == build(k).value && t.cache[k].serial < t.calls
    {
      if k in s.cache {
        assert t.cache[k] == s.cache[k];
      }
    }
  }

  /** `_namedtuple` keeps the cache sound, on both of its paths. */
  lemma SynthesizedKeepsCacheSound(s: MemoState, build: Builder, r: Request)
    requires CacheSound(s, build)
    ensures CacheSound(Synthesized(s, build, r).0, build)
  {
    if !Truthy(r.verbose) {
      MemoCallKeepsCacheSound(s, build, r);
    }
  }

  /**
    A verbose request always yields a freshly built type: none of the types
    in the cache, even one cached under the very same arguments.
   */
  lemma VerboseBuildsFreshType(s: MemoState, build: Builder, r: Request)
    requires CacheSound(s, build)
    requires Truthy(r.verbose)
    ensures var out := Synthesized(s, build, r);
      out.1.Ok? ==> forall k :: k in s.cache ==> s.cache[k] != out.1.value
  {
  }

  /** The results and final state of `n` identical requests in a row. */
  function Repeat(s: MemoState, build: Builder, r: Request, n: nat): (out: (MemoState, seq<Result<TypeObj>>))
    ensures |out.1| == n
    decreases n
  {
    if n == 0 then (s, [])
    else
      var first := Synthesized(s, build, r);
      var rest := Repeat(first.0, build, r, n - 1);
      (rest.0, [first.1] + rest.1)
  }

  /**
    Built once per key: `n` identical non-verbose requests call the
    constructor at most once when it succeeds (not at all when the key is
    already cached) and all return the same type object; when it raises,
    nothing is cached and every request tries again.
   */
  lemma {:induction false} RepeatedRequestsBuildOnce(s: MemoState, build: Builder, r: Request, n: nat)
    requires !Truthy(r.verbose)
    decreases n
    ensures var out := Repeat(s, build, r, n);
      && (r in s.cache ==>
            out.0 == s && forall i :: 0 <= i < n ==> out.1[i] == Ok(s.cache[r]))
      && (r !in s.cache && build(r).Ok? && n > 0 ==>
            && out.0.calls == s.calls + 1
            && out.0.cache == s.cache[r := TypeObj(build(r).value, s.calls)]
            && forall i :: 0 <= i < n ==> out.1[i] == Ok(TypeObj(build(r).value, s.calls)))
      && (r !in s.cache && build(r).Err? ==>
            && out.0 == MemoState(s.cache, s.calls + n)
            && forall i :: 0 <= i < n ==> out.1[i] == Err(build(r).error))
  {
    if n > 0 {
      var first := Synthesized(s, build, r);
      RepeatedRequestsBuildOnce(first.0, build, r, n - 1);
      var rest := Repeat(first.0, build, r, n - 1);
      assert Repeat(s, build, r, n).1 == [first.1] + rest.1;
      if r !in s.cache && build(r).Ok? {
        assert r in first.0.cache;
      }
    }
  }

  /**
    The record-type constructor, instrumented: `calls` counts how often it
    has been invoked.
   */
  class Constructor {
    const build: Builder
    var calls: nat

    constructor (build: Builder)
      ensures this.build == build && calls == 0
    {
      this.build := build;
      calls := 0;
    }

    method Build(r: Request) returns (res: Result<TypeObj>)
      modifies this
      ensures calls == old(calls) + 1
      ensures res == Construct(build, old(calls), r)
    {
      res := Construct(build, calls, r);
      calls := calls + 1;
    }
  }

  /** `memoize` applied to the constructor: the wrapped function and its cache. */
  class Memoizer {
    const wrapped: Constructor
    var cache: map<Request, TypeObj>

    constructor (wrapped: Constructor)
      ensures this.wrapped == wrapped && cache == map[]
      ensures Valid()
    {
      this.wrapped := wrapped;
      cache := map[];
    }

    function State(): MemoState
      reads this, wrapped
    {
      MemoState(cache, wrapped.calls)
    }

    ghost predicate Valid()
      reads this, wrapped
    {
      CacheSound(State(), wrapped.build)
    }

    /** `memoizer(*args)`: look the key up, and call and store on a miss. */
    method Call(r: Request) returns (res: Result<TypeObj>)
      modifies this, wrapped
      ensures (State(), res) == MemoCall(old(State()), wrapped.build, r)
      ensures old(Valid()) ==> Valid()
    {
      ghost var before := State();
      if r !in cache {
        var built := wrapped.Build(r);
        if built.Err? {
          res := built;
          if CacheSound(before, wrapped.build) {
            MemoCallKeepsCacheSound(before, wrapped.build, r);
          }
          return;
        }
        cache := cache[r := built.value];
      }
      res := Ok(cache[r]);
      if CacheSound(before, wrapped.build) {
        MemoCallKeepsCacheSound(before, wrapped.build, r);
      }
    }
  }

  /** `_namedtuple(name, field_names, verbose, rename, docstring)` */
  method Synthesize(memo: Memoizer, r: Request) returns (res: Result<TypeObj>)
    modifies memo, memo.wrapped
    ensures (memo.State(), res) == Synthesized(old(memo.State()), memo.wrapped.build, r)
    ensures old(memo.Valid()) ==> memo.Valid()
  {
    ghost var before := memo.State();
    if Truthy(r.verbose) {
      res := memo.wrapped.Build(r);
      if CacheSound(before, memo.wrapped.build) {
        SynthesizedKeepsCacheSound(before, memo.wrapped.build, r);
      }
    } else {
      res := memo.Call(r);
    }
  }
}
