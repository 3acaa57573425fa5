/**
 * The Python values that flow through a dataset descriptor's keyword arguments.
 * Integers and booleans keep their value; every other object (a normalisation tensor,
 * a transform pipeline, a label-mapping function, a class) is opaque: only its class
 * and an identity are kept.
 */
module PyValues {

  /** The runtime type of a non-None value. */
  datatype PyType = BoolType | IntType | ClassType(name: string)

  /**
   * A Python value. `None`, `int` and `bool` values are always written with their own
   * constructors: an `Instance` never carries one of the built-in class names `NoneType`,
   * `int` or `bool`, so every object has exactly one encoding.
   */
  datatype Value =
    | NoneValue
    | IntValue(i: int)
    | BoolValue(b: bool)
    | Instance(cls: string, id: string)

  /** `type(v)` for a value that is not `None`. */
  function TypeOf(v: Value): (t: PyType)
    requires v != NoneValue
  {
    if v.IntValue? then IntType
    else if v.BoolValue? then BoolType
    else ClassType(v.cls)
  }

  /**
   * `issubclass(t, u)`. In Python `bool` is a subclass of `int`; the opaque classes
   * are related only to themselves.
   */
  predicate IsSubclass(t: PyType, u: PyType)
  {
    t == u || (t == BoolType && u == IntType)
  }

  /** `isinstance(v, t)` for a type `t` other than `NoneType`. */
  predicate IsInstance(v: Value, t: PyType)
  {
    v != NoneValue && IsSubclass(TypeOf(v), t)
  }
}
