/**
  The call-shape test that both implementations share verbatim: whether
  `namedtuple` was called the way the standard library's `namedtuple` is.
 */
module CallShape {
  import opened PyValues

  /**
    `namedtuple('Point', 'x y')` or `namedtuple(..., field_names=...)`:
    a `field_names` keyword, or a second positional argument that can be
    iterated.
   */
  predicate IsUsedLikeStdNamedtuple(args: seq<Value>, kwargs: Kwargs) {
    HasKey(kwargs, "field_names") || (|args| > 1 && IsIterable(args[1]))
  }
}
