/**
  The inference rules as the Python file writes them: conjunction is a
  2-tuple, implication is a bare function (a closure), and disjunction is a
  tagged pair, which here is the shared `Or` sum. Python's `or_e` is
  `Disjunction.Elim` itself: it takes two plain functions as its branches.
 */
module PythonRules {

  /** And-introduction ^i: the pair of the two pieces of evidence. */
  function AndI<P, Q>(p: P, q: Q): (r: (P, Q))
    ensures AndE1(r) == p && AndE2(r) == q
  {
    (p, q)
  }

  /** And-elimination ^e1: the evidence of P that the pair holds beside its evidence of Q. */
  function AndE1<P, Q>(pq: (P, Q)): (r: P)
    ensures (r, pq.1) == pq
  {
    pq.0
  }

  /** And-elimination ^e2: the evidence of Q that the pair holds beside its evidence of P. */
  function AndE2<P, Q>(pq: (P, Q)): (r: Q)
    ensures (pq.0, r) == pq
  {
    pq.1
  }

  /** A pair is rebuilt from its two projections. */
  lemma AndFromProjections<P, Q>(pq: (P, Q))
    ensures AndI(AndE1(pq), AndE2(pq)) == pq
  {
  }

  /**
    Implication-introduction ->i: wraps a sub-proof in a new function that
    calls it; the result agrees with the sub-proof on every evidence of P.
   */
  function ImplyI<P(!new), Q>(pDEDUCEq: P -> Q): (r: P -> Q)
    ensures forall p: P :: r(p) == pDEDUCEq(p)
  {
    (p: P) => pDEDUCEq(p)
  }

  /** Implication-elimination ->e (modus ponens): the evidence of P -> Q applied to evidence of P. */
  function ImplyE<P, Q>(pIMPLYq: P -> Q, p: P): (r: Q)
    ensures r == pIMPLYq(p)
  {
    pIMPLYq(p)
  }

  /** Introducing and then eliminating is beta-reduction: the sub-proof runs on p. */
  lemma ImplyBeta<P(!new), Q>(pDEDUCEq: P -> Q, p: P)
    ensures ImplyE(ImplyI(pDEDUCEq), p) == pDEDUCEq(p)
  {
  }
}
