/**
  Disjunction as evidence: a value of `Or<A, B>` is evidence of `A v B`.
  It carries evidence of exactly one side, and its constructor is the tag
  that says which side holds. The payload of the inactive side is not
  merely absent at run time; it cannot be written down at all.

  Both encodings of the repository use this one sum: the Java file tags by
  subclass (`Left` / `Right`), the Python file by a string in a pair
  (`"left"` / `"right"`). Case analysis (`Elim`) is the or-elimination rule.
 */
module Disjunction {

  datatype Or<A, B> = Left(left: A) | Right(right: B)

  /** Or-introduction vi1: evidence of A is evidence of A v B, tagged left. */
  function OrI1<A, B>(a: A): (r: Or<A, B>)
    ensures r.Left?
    ensures r.left == a
  {
    Left(a)
  }

  /** Or-introduction vi2: evidence of B is evidence of A v B, tagged right. */
  function OrI2<A, B>(b: B): (r: Or<A, B>)
    ensures r.Right?
    ensures r.right == b
  {
    Right(b)
  }

  /**
    Or-elimination ve: given a sub-proof from A to C and one from B to C,
    activate the one that matches the tag, on that tag's payload.
   */
  function Elim<A, B, C>(o: Or<A, B>, onLeft: A -> C, onRight: B -> C): (r: C)
    ensures o.Left? ==> r == onLeft(o.left)
    ensures o.Right? ==> r == onRight(o.right)
  {
    match o
    case Left(a) => onLeft(a)
    case Right(b) => onRight(b)
  }

  /** Introducing on the left and then eliminating runs the left branch on the payload. */
  lemma ElimOrI1<A, B, C>(a: A, onLeft: A -> C, onRight: B -> C)
    ensures Elim(OrI1(a), onLeft, onRight) == onLeft(a)
  {
  }

  /** Introducing on the right and then eliminating runs the right branch on the payload. */
  lemma ElimOrI2<A, B, C>(b: B, onLeft: A -> C, onRight: B -> C)
    ensures Elim(OrI2(b), onLeft, onRight) == onRight(b)
  {
  }

  /**
    Exactly one branch is consulted: replacing the branch that does not
    match the tag never changes the result.
   */
  lemma ElimIgnoresOtherBranch<A, B, C>(o: Or<A, B>, onLeft: A -> C, onLeft': A -> C,
                                        onRight: B -> C, onRight': B -> C)
    ensures o.Left? ==> Elim(o, onLeft, onRight) == Elim(o, onLeft, onRight')
    ensures o.Right? ==> Elim(o, onLeft, onRight) == Elim(o, onLeft', onRight)
  {
  }

  /** Eliminating with the two introductions rebuilds the value (the tag is kept). */
  lemma ElimWithIntroductions<A, B>(o: Or<A, B>)
    ensures Elim(o, (a: A) => OrI1(a), (b: B) => OrI2(b)) == o
  {
  }

  /**
    Case analysis is all there is to a disjunction: two values that no pair
    of branches can tell apart are the same value, tag and payload.
   */
  lemma {:induction false} ElimDetermines<A, B>(x: Or<A, B>, y: Or<A, B>)
    requires forall onLeft: A -> Or<A, B>, onRight: B -> Or<A, B> ::
               Elim(x, onLeft, onRight) == Elim(y, onLeft, onRight)
    ensures x == y
  {
    var onLeft := (a: A) => OrI1(a);
    var onRight := (b: B) => OrI2(b);
    ElimWithIntroductions(x);
    ElimWithIntroductions(y);
    assert Elim(x, onLeft, onRight) == Elim(y, onLeft, onRight);
  }

  /**
    Tag fidelity: a left-tagged value is never observably equal to a
    right-tagged one; some pair of branches separates them, whatever the
    payloads are.
   */
  lemma {:induction false} LeftAndRightAreDistinguishable<A, B>(a: A, b: B)
    ensures exists onLeft: A -> bool, onRight: B -> bool ::
              Elim(OrI1(a), onLeft, onRight) != Elim(OrI2(b), onLeft, onRight)
  {
    var onLeft := (_: A) => true;
    var onRight := (_: B) => false;
    assert Elim(OrI1(a), onLeft, onRight) != Elim(OrI2(b), onLeft, onRight);
  }
}
