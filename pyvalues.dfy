/** The Python values that flow through configuration entries and result rows. */
module PyValues {

  datatype PyValue =
    | PyNone
    | PyBool(b: bool)
    | PyInt(i: int)
    | PyFloat(r: real)
    | PyStr(s: string)
    | PyList(items: seq<PyValue>)
    | PyDict(entries: map<string, PyValue>)

  /** Python's `b == v` for a bool `b`: a bool is the integer 0 or 1, so it equals the numbers
      0/1 (and 0.0/1.0) as well as the bool itself; it never equals a string, None or a container. */
  predicate BoolEquals(b: bool, v: PyValue)
    ensures v.PyBool? ==> (BoolEquals(b, v) <==> v.b == b)
    ensures v.PyStr? ==> !BoolEquals(b, v)
  {
    match v
    case PyBool(c) => b == c
    case PyInt(i) => i == (if b then 1 else 0)
    case PyFloat(r) => r == (if b then 1.0 else 0.0)
    case _ => false
  }

  /** `b == v` holds for exactly one of the two bools when `v` is a bool or the number 0 or 1,
      and for neither bool otherwise. */
  lemma BoolEqualsOneSide(v: PyValue)
    ensures (BoolEquals(true, v) && BoolEquals(false, v)) == false
    ensures (BoolEquals(true, v) || BoolEquals(false, v)) <==>
      (v.PyBool? || v == PyInt(0) || v == PyInt(1) || v == PyFloat(0.0) || v == PyFloat(1.0))
  {
  }

  /** A string, None, a list or a dict is never equal to a bool. */
  lemma NonNumbersEqualNoBool(v: PyValue, b: bool)
    requires v.PyStr? || v.PyNone? || v.PyList? || v.PyDict?
    ensures !BoolEquals(b, v)
  {
  }
}
