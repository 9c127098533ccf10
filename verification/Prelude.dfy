/** Types shared by every module of the model. */
module Prelude {

  datatype Option<+T> = None | Some(value: T)

  datatype Result<+T, +E> = Ok(value: T) | Err(error: E)

  /** Text is only compared for equality and order in the modelled code. A value stands for the
      rank of the text in the collation order of the database. */
  type Text = int

  /** A calendar date, as a day number. */
  type Day = int

  function Max(a: int, b: int): int { if a >= b then a else b }

  function Min(a: int, b: int): int { if a <= b then a else b }

  /** A set with nothing in it is the empty set. */
  lemma Inhabited(s: set<Text>)
    ensures (forall x :: x !in s) ==> s == {}
  {
    if forall x :: x !in s {
      assert s == {};
    }
  }

  /** Taking a subset away leaves the rest. */
  lemma Without(whole: set<int>, part: set<int>)
    requires part <= whole
    ensures |whole - part| == |whole| - |part|
    ensures |part| <= |whole| && (|part| == |whole| <==> part == whole)
  {
    assert whole == (whole - part) + part;
    Inhabited(whole - part);
    if part != whole {
      assert whole - part != {};
    }
  }

  lemma DropOne(s: set<int>, x: int)
    ensures |s - {x}| == |s| - if x in s then 1 else 0
  {
    if x in s {
      assert s == (s - {x}) + {x};
    } else {
      assert s - {x} == s;
    }
  }
}
