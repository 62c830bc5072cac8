/**
  The two files encode the same logic twice. This module translates Java
  evidence into Python evidence (a conjunction object becomes a tuple, an
  implication object becomes the function its deduction computes) and shows
  that every worked proof of the Java file produces, under that
  translation, what its Python twin produces.
 */
module Agreement {
  import opened Disjunction
  import J = JavaRules
  import JP = JavaProofs
  import Py = PythonRules
  import PyP = PythonProofs

  /** A Java conjunction as a Python pair. */
  function Pair<A, B>(c: J.And<A, B>): (A, B)
  {
    Py.AndI(c.AndE1(), c.AndE2())
  }

  /** A Java implication as the Python function it stands for. */
  function Arrow<A, B>(i: J.Imply<A, B>): A -> B
  {
    (a: A) => i.ImplyE(a)
  }

  /** A Java implication from a conjunction, as a Python function on pairs. */
  function PairArrow<A, B, C>(i: J.Imply<J.And<A, B>, C>): ((A, B)) -> C
  {
    (ab: (A, B)) => i.ImplyE(J.And(Py.AndE1(ab), Py.AndE2(ab)))
  }

  /** A Java implication with an implication as conclusion, as a curried Python function. */
  function CurriedArrow<A, B, C>(i: J.Imply<A, J.Imply<B, C>>): A -> (B -> C)
  {
    (a: A) => Arrow(i.ImplyE(a))
  }

  /** The translation keeps both projections of a conjunction. */
  lemma PairKeepsProjections<A, B>(c: J.And<A, B>)
    ensures Py.AndE1(Pair(c)) == c.AndE1() && Py.AndE2(Pair(c)) == c.AndE2()
  {
  }

  /** The translation keeps what an implication does to every piece of evidence. */
  lemma ArrowKeepsElimination<A, B>(i: J.Imply<A, B>, a: A)
    ensures Py.ImplyE(Arrow(i), a) == i.ImplyE(a)
  {
  }

  /** p ^ q |- q ^ p in both files. */
  lemma AndExamplesAgree<P, Q>(pANDq: J.And<P, Q>)
    ensures Pair(JP.AndExample(pANDq)) == PyP.AndExample(Pair(pANDq))
  {
  }

  /** (p ^ q) -> r, p -> q, p |- r in both files. */
  lemma Example1Agrees<P, Q, R>(pqIMPLYr: J.Imply<J.And<P, Q>, R>, pIMPLYq: J.Imply<P, Q>, p: P)
    ensures JP.Example1(pqIMPLYr, pIMPLYq, p) == PyP.Example1(PairArrow(pqIMPLYr), Arrow(pIMPLYq), p)
  {
  }

  /** (p v q) -> r, q |- r: Java `example11` and Python `example2`. */
  lemma Example11Agrees<P, Q, R>(pqIMPLYr: J.Imply<Or<P, Q>, R>, q: Q)
    ensures JP.Example11(pqIMPLYr, q) == PyP.Example2(Arrow(pqIMPLYr), q)
  {
  }

  /** p, (q ^ p) -> r |- q -> r: Java `example12` and Python `example3`, on any q. */
  lemma Example12Agrees<P, Q(!new), R>(p: P, qpIMPLYr: J.Imply<J.And<Q, P>, R>, q: Q)
    ensures JP.Example12(p, qpIMPLYr).ImplyE(q) == PyP.Example3(p, PairArrow(qpIMPLYr))(q)
  {
  }

  /** p -> r, q -> r |- (p v q) -> r: Java `example2` and Python `example4`, on any p v q. */
  lemma {:induction false} Example2Agrees<P(!new), Q(!new), R>(pIMPLYr: J.Imply<P, R>, qIMPLYr: J.Imply<Q, R>,
                                                               pORq: Or<P, Q>)
    ensures JP.Example2(pIMPLYr, qIMPLYr).ImplyE(pORq) == PyP.Example4(Arrow(pIMPLYr), Arrow(qIMPLYr))(pORq)
  {
    match pORq
    case Left(p) =>
      assert pORq == OrI1(p);
    case Right(q) =>
      assert pORq == OrI2(q);
  }

  /** q |- p -> (q ^ p): Java `example3` and Python `example5`, on any p. */
  lemma Example3Agrees<P(!new), Q>(q: Q, p: P)
    ensures Pair(JP.Example3(q).ImplyE(p)) == PyP.Example5(q)(p)
  {
  }

  /** The S combinator: Java `example4` and Python `example6`, on any p -> q and p. */
  lemma Example4Agrees<P(!new), Q(!new), R>(pIMPLYqir: J.Imply<P, J.Imply<Q, R>>, pIMPLYq: J.Imply<P, Q>, p: P)
    ensures JP.Example4(pIMPLYqir).ImplyE(pIMPLYq).ImplyE(p)
            == PyP.Example6(CurriedArrow(pIMPLYqir))(Arrow(pIMPLYq))(p)
  {
  }
}
