/** What both evaluators take from the Python runtime and cannot be stated
    exactly over the reals: float `%`, the `math` functions, the values
    `random.random()` and `time.time()` return, and the text of a float.
    Each is a parameter of the model; nothing is assumed about it. */
module Host {
  import opened Support

  datatype Host = Host(
    /** `x % y` on floats, for a non-zero `y` */
    mod: (real, real) -> real,
    sin: real -> real,
    cos: real -> real,
    /** `math.sqrt`, for a non-negative argument */
    sqrt: real -> real,
    pow: (real, real) -> real,
    /** the value the i-th external draw (`random.random()`) returns */
    random: nat -> real,
    /** the value `time.time()` returns at the i-th external draw */
    clock: nat -> real,
    /** `str(x)` of a float */
    floatText: real -> string,
    /** `float(s)` of a string: None where Python raises ValueError */
    parseFloat: string -> Option<real>)
}
