/**
  The worked proofs of the Python file, composed from `PythonRules` and the
  shared disjunction. Its `or_example` builds exactly the value of the Java
  one from the same two introductions, so it is `JavaProofs.OrExample`.
 */
module PythonProofs {
  import opened Disjunction
  import opened PythonRules

  /** p ^ q |- q ^ p: the items of the premise pair, swapped. */
  function AndExample<P, Q>(pANDq: (P, Q)): (r: (Q, P))
    ensures AndE1(r) == AndE2(pANDq) && AndE2(r) == AndE1(pANDq)
  {
    var p := AndE1(pANDq);
    var q := AndE2(pANDq);
    AndI(q, p)
  }

  /** Swapping twice gives back the original pair. */
  lemma AndExampleInvolution<P, Q>(pANDq: (P, Q))
    ensures AndExample(AndExample(pANDq)) == pANDq
  {
  }

  /** (p ^ q) -> r, p -> q, p |- r: the first premise applied to the pair (p, the second premise on p). */
  function Example1<P, Q, R>(pqIMPLYr: ((P, Q)) -> R, pIMPLYq: P -> Q, p: P): (r: R)
    ensures r == pqIMPLYr((p, pIMPLYq(p)))
  {
    var q := ImplyE(pIMPLYq, p);
    var pANDq := AndI(p, q);
    ImplyE(pqIMPLYr, pANDq)
  }

  /** (p v q) -> r, q |- r: the premise applied to q tagged right. */
  function Example2<P, Q, R>(pqIMPLYr: Or<P, Q> -> R, q: Q): (r: R)
    ensures r == pqIMPLYr(Right(q))
  {
    var pORq := OrI2(q);
    ImplyE(pqIMPLYr, pORq)
  }

  /** p, (q ^ p) -> r |- q -> r: the implication sends q to the premise on the pair (q, p). */
  function Example3<P, Q(!new), R>(p: P, qpIMPLYr: ((Q, P)) -> R): (r: Q -> R)
    ensures forall q: Q :: r(q) == qpIMPLYr((q, p))
  {
    var qDEDUCEr := (q: Q) =>
      var qANDp := AndI(q, p);
      ImplyE(qpIMPLYr, qANDp);
    ImplyI(qDEDUCEr)
  }

  /**
    p -> r, q -> r |- (p v q) -> r: the implication runs the first premise
    on left-tagged evidence and the second on right-tagged evidence.
   */
  function Example4<P(!new), Q(!new), R>(pIMPLYr: P -> R, qIMPLYr: Q -> R): (r: Or<P, Q> -> R)
    ensures forall p: P :: r(OrI1(p)) == pIMPLYr(p)
    ensures forall q: Q :: r(OrI2(q)) == qIMPLYr(q)
  {
    var pqDEDUCEr := (pORq: Or<P, Q>) =>
      var pDEDUCEr := (p: P) => ImplyE(pIMPLYr, p);
      var qDEDUCEr := (q: Q) => ImplyE(qIMPLYr, q);
      Elim(pORq, pDEDUCEr, qDEDUCEr);
    ImplyI(pqDEDUCEr)
  }

  /** q |- p -> (q ^ p): the implication pairs q with whatever evidence of p it is given. */
  function Example5<P(!new), Q>(q: Q): (r: P -> (Q, P))
    ensures forall p: P :: AndE1(r(p)) == q && AndE2(r(p)) == p
  {
    var pDEDUCEqp := (p: P) => AndI(q, p);
    ImplyI(pDEDUCEqp)
  }

  /**
    p -> (q -> r) |- (p -> q) -> (p -> r), the S combinator: given g and
    then p, the result is h(p)(g(p)).
   */
  function Example6<P(!new), Q(!new), R>(pIMPLYqir: P -> (Q -> R)): (r: (P -> Q) -> (P -> R))
    ensures forall pIMPLYq: P -> Q, p: P :: r(pIMPLYq)(p) == pIMPLYqir(p)(pIMPLYq(p))
  {
    var piqDEDUCEpir := (pIMPLYq: P -> Q) =>
      var pDEDUCEr := (p: P) =>
        var qIMPLYr := ImplyE(pIMPLYqir, p);
        var q := ImplyE(pIMPLYq, p);
        ImplyE(qIMPLYr, q);
      ImplyI(pDEDUCEr);
    ImplyI(piqDEDUCEpir)
  }
}
