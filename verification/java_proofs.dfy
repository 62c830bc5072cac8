/**
  The worked proofs of the Java file. Each is a composition of the rules in
  `JavaRules`; each contract states, in closed form, what evidence the proof
  produces from its premises. Hypothetical sub-proofs (the boxed parts of a
  natural-deduction proof) are `Deduction` closures capturing the premises.
 */
module JavaProofs {
  import opened Disjunction
  import opened JavaRules

  /** p ^ q |- q ^ p: the projections of the result are those of the premise, swapped. */
  function AndExample<P, Q>(pANDq: And<P, Q>): (r: And<Q, P>)
    ensures r.AndE1() == pANDq.AndE2()
    ensures r.AndE2() == pANDq.AndE1()
  {
    var p := pANDq.AndE1();
    var q := pANDq.AndE2();
    And(q, p)
  }

  /** Swapping twice gives back the original conjunction. */
  lemma AndExampleInvolution<P, Q>(pANDq: And<P, Q>)
    ensures AndExample(AndExample(pANDq)) == pANDq
  {
  }

  /** q |- p v q v r: the evidence is q tagged right, then tagged left. */
  function OrExample<P, Q, R>(q: Q): (r: Or<Or<P, Q>, R>)
    ensures r.Left? && r.left.Right?
    ensures r.left.right == q
  {
    var pORq := OrI2(q);
    OrI1(pORq)
  }

  /**
    Whatever sub-proofs eliminate the result of `OrExample`, the outer
    elimination takes its left branch and the inner one its right branch,
    both on q's evidence.
   */
  lemma OrExampleElim<P, Q, R, C>(q: Q, onP: P -> C, onQ: Q -> C, onR: R -> C)
    ensures Elim(OrExample<P, Q, R>(q), (pq: Or<P, Q>) => Elim(pq, onP, onQ), onR) == onQ(q)
  {
  }

  /** (p ^ q) -> r, p -> q, p |- r: the result is the first premise's step on (p, q's step on p). */
  function Example1<P, Q, R>(pqIMPLYr: Imply<And<P, Q>, R>, pIMPLYq: Imply<P, Q>, p: P): (r: R)
    ensures r == pqIMPLYr.deduction.step(And(p, pIMPLYq.deduction.step(p)))
  {
    var q := pIMPLYq.ImplyE(p);
    var pANDq := And(p, q);
    pqIMPLYr.ImplyE(pANDq)
  }

  /** (p v q) -> r, q |- r: the result is the premise's step on q tagged right. */
  function Example11<P, Q, R>(pqIMPLYr: Imply<Or<P, Q>, R>, q: Q): (r: R)
    ensures r == pqIMPLYr.deduction.step(Right(q))
  {
    var pORq := OrI2(q);
    pqIMPLYr.ImplyE(pORq)
  }

  /** p, (q ^ p) -> r |- q -> r: the implication sends q to the premise's step on (q, p). */
  function Example12<P, Q(!new), R>(p: P, qpIMPLYr: Imply<And<Q, P>, R>): (r: Imply<Q, R>)
    ensures forall q: Q :: r.ImplyE(q) == qpIMPLYr.ImplyE(And(q, p))
  {
    var qDEDUCEr := Deduction((q: Q) => qpIMPLYr.ImplyE(And(q, p)));
    Imply(qDEDUCEr)
  }

  /**
    p -> r, q -> r |- (p v q) -> r: the implication runs the first premise
    on left-tagged evidence and the second on right-tagged evidence.
   */
  function Example2<P(!new), Q(!new), R>(pIMPLYr: Imply<P, R>, qIMPLYr: Imply<Q, R>): (r: Imply<Or<P, Q>, R>)
    ensures forall p: P :: r.ImplyE(OrI1(p)) == pIMPLYr.ImplyE(p)
    ensures forall q: Q :: r.ImplyE(OrI2(q)) == qIMPLYr.ImplyE(q)
  {
    var pqDEDUCEr := Deduction((pORq: Or<P, Q>) =>
      var pDEDUCEr := Deduction((p: P) => pIMPLYr.ImplyE(p));
      var qDEDUCEr := Deduction((q: Q) => qIMPLYr.ImplyE(q));
      OrE(pORq, pDEDUCEr, qDEDUCEr));
    Imply(pqDEDUCEr)
  }

  /**
    `Example2` loses nothing: restricting its result to the two
    introductions gives back the two premises, pointwise.
   */
  lemma {:induction false} Example2Restricts<P(!new), Q(!new), R>(k: Imply<Or<P, Q>, R>, o: Or<P, Q>)
    ensures var pIMPLYr := Imply(Deduction((p: P) => k.ImplyE(OrI1(p))));
            var qIMPLYr := Imply(Deduction((q: Q) => k.ImplyE(OrI2(q))));
            Example2(pIMPLYr, qIMPLYr).ImplyE(o) == k.ImplyE(o)
  {
    var pIMPLYr := Imply(Deduction((p: P) => k.ImplyE(OrI1(p))));
    var qIMPLYr := Imply(Deduction((q: Q) => k.ImplyE(OrI2(q))));
    match o
    case Left(p) =>
      assert Example2(pIMPLYr, qIMPLYr).ImplyE(OrI1(p)) == pIMPLYr.ImplyE(p);
    case Right(q) =>
      assert Example2(pIMPLYr, qIMPLYr).ImplyE(OrI2(q)) == qIMPLYr.ImplyE(q);
  }

  /**
    `example2` as the Java file runs it, on the `or_e` as written: both inner
    sub-proofs are handed null instead of the disjunction's payload, so the
    premises must accept nullable evidence, and the payload never reaches them.
   */
  function Example2AsWritten<P(!new), Q(!new), R>(pIMPLYr: Imply<Nullable<P>, R>, qIMPLYr: Imply<Nullable<Q>, R>)
    : (r: Imply<Or<P, Q>, R>)
    ensures forall p: P :: r.ImplyE(OrI1(p)) == pIMPLYr.ImplyE(Null)
    ensures forall q: Q :: r.ImplyE(OrI2(q)) == qIMPLYr.ImplyE(Null)
  {
    var pqDEDUCEr := Deduction((pORq: Or<P, Q>) =>
      var pDEDUCEr := Deduction((p: Nullable<P>) => pIMPLYr.ImplyE(p));
      var qDEDUCEr := Deduction((q: Nullable<Q>) => qIMPLYr.ImplyE(q));
      OrEAsWritten(pORq, pDEDUCEr, qDEDUCEr));
    Imply(pqDEDUCEr)
  }

  /**
    The discrepancy carried into the proof: with the identity as p -> r,
    the as-written `example2` sends `or_i1(7)` to null, while `Example2`
    (the documented `or_e`) sends it to the payload 7.
   */
  lemma Example2AsWrittenLosesPayload()
    ensures var id := Imply(Deduction((n: Nullable<int>) => n));
            && Example2AsWritten<int, int, Nullable<int>>(id, id).ImplyE(OrI1(7)) == Null
            && Example2<int, int, Nullable<int>>(Imply(Deduction((v: int) => id.ImplyE(Ref(v)))),
                                                 Imply(Deduction((v: int) => id.ImplyE(Ref(v))))).ImplyE(OrI1(7)) == Ref(7)
  {
  }

  /** q |- p -> (q ^ p): the implication pairs q with whatever evidence of p it is given. */
  function Example3<P(!new), Q>(q: Q): (r: Imply<P, And<Q, P>>)
    ensures forall p: P :: r.ImplyE(p).AndE1() == q && r.ImplyE(p).AndE2() == p
  {
    var pDEDUCEqp := Deduction((p: P) => And(q, p));
    Imply(pDEDUCEqp)
  }

  /**
    p -> (q -> r) |- (p -> q) -> (p -> r), the S combinator: given g and p,
    the result is h's step on p, eliminated with g's step on p.
   */
  function Example4<P(!new), Q(!new), R>(pIMPLYqir: Imply<P, Imply<Q, R>>): (r: Imply<Imply<P, Q>, Imply<P, R>>)
    ensures forall pIMPLYq: Imply<P, Q>, p: P ::
              r.ImplyE(pIMPLYq).ImplyE(p) == pIMPLYqir.ImplyE(p).ImplyE(pIMPLYq.ImplyE(p))
  {
    var piqDEDUCEpir := Deduction((pIMPLYq: Imply<P, Q>) =>
      var pDEDUCEr := Deduction((p: P) =>
        var qIMPLYr := pIMPLYqir.ImplyE(p);
        var q := pIMPLYq.ImplyE(p);
        qIMPLYr.ImplyE(q));
      Imply(pDEDUCEr));
    Imply(piqDEDUCEpir)
  }
}
