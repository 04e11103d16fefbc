/** Cell values as the workbook library hands them to Python: `None`, text,
    whole numbers and booleans, with Python's truthiness, `str()` and `==`. */
module Cells {
  import opened PyText

  datatype Value = Null | Str(s: string) | Int(i: int) | Bool(b: bool)

  /** Python truthiness (`if value:`): None, "", 0 and False are false. */
  predicate Truthy(v: Value) {
    match v
    case Null => false
    case Str(s) => s != ""
    case Int(i) => i != 0
    case Bool(b) => b
  }

  /** `str(value)`. */
  function Show(v: Value): string {
    match v
    case Null => "None"
    case Str(s) => s
    case Int(i) => IntToDecimal(i)
    case Bool(b) => if b then "True" else "False"
  }

  predicate IsNumber(v: Value) { v.Int? || v.Bool? }

  /** The integer a number stands for (`bool` is a subclass of `int`). */
  function NumberOf(v: Value): int
    requires IsNumber(v)
  {
    match v
    case Int(i) => i
    case Bool(b) => if b then 1 else 0
  }

  /** Python `==` between two cell values: `True == 1` and `False == 0`
      hold, values of unrelated types are unequal. */
  predicate PyEq(a: Value, b: Value) {
    if IsNumber(a) && IsNumber(b) then NumberOf(a) == NumberOf(b)
    else a == b
  }

  /** Python `==` is an equivalence relation on cell values. */
  lemma {:induction false} PyEqEquivalence(a: Value, b: Value, c: Value)
    ensures PyEq(a, a)
    ensures PyEq(a, b) ==> PyEq(b, a)
    ensures PyEq(a, b) && PyEq(b, c) ==> PyEq(a, c)
  {
  }

  /** Python `==` between two tuples of cell values, element by element. */
  predicate KeyEq(a: seq<Value>, b: seq<Value>) {
    |a| == |b| && forall k :: 0 <= k < |a| ==> PyEq(a[k], b[k])
  }

  lemma {:induction false} KeyEqEquivalence(a: seq<Value>, b: seq<Value>, c: seq<Value>)
    ensures KeyEq(a, a)
    ensures KeyEq(a, b) ==> KeyEq(b, a)
    ensures KeyEq(a, b) && KeyEq(b, c) ==> KeyEq(a, c)
  {
    forall k | 0 <= k < |a| { PyEqEquivalence(a[k], if k < |b| then b[k] else a[k], if k < |c| then c[k] else a[k]); }
  }
}
