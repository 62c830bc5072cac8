/**
  The inference rules as the Java file writes them: conjunction is a class
  holding two fields, a sub-proof is a `Deduction` object whose `apply`
  activates its `deduction_step`, and implication is a class wrapping one
  `Deduction`. Disjunction is the shared `Or` sum; its elimination here
  takes two `Deduction`s rather than two bare functions.

  The placeholder proposition classes P, Q, R become type parameters.
 */
module JavaRules {
  import opened Disjunction

  /** Evidence of T1 ^ T2; the constructor is the introduction rule ^i. */
  datatype And<T1, T2> = And(v1: T1, v2: T2) {

    /** And-elimination ^e1. */
    function AndE1(): T1 { v1 }

    /** And-elimination ^e2. */
    function AndE2(): T2 { v2 }
  }

  /** Projecting a freshly built pair gives back the two pieces of evidence. */
  lemma AndRoundTrip<T1, T2>(x: T1, y: T2)
    ensures And(x, y).AndE1() == x
    ensures And(x, y).AndE2() == y
  {
  }

  /** A pair is nothing more than its two projections. */
  lemma AndFromProjections<T1, T2>(c: And<T1, T2>)
    ensures And(c.AndE1(), c.AndE2()) == c
  {
  }

  /** A hypothetical sub-proof "assume T1, derive T2". */
  datatype Deduction<-T1, T2> = Deduction(step: T1 -> T2) {

    /** Activates the sub-proof on evidence of its assumption. */
    function Apply(v: T1): T2 { step(v) }
  }

  /** Evidence of T1 -> T2; the constructor is the introduction rule ->i. */
  datatype Imply<-T1, T2> = Imply(deduction: Deduction<T1, T2>) {

    /**
      Implication-elimination ->e (modus ponens): the wrapped sub-proof is
      activated exactly once, on the given evidence.
     */
    function ImplyE(v: T1): (r: T2)
      ensures r == deduction.step(v)
    {
      deduction.Apply(v)
    }
  }

  /**
    Or-elimination with `Deduction` branches, as the Java class documents
    it: the branch matching the tag is activated on that tag's payload.
   */
  function OrE<T1, T2, T3>(o: Or<T1, T2>, d1: Deduction<T1, T3>, d2: Deduction<T2, T3>): (r: T3)
    ensures o.Left? ==> r == d1.step(o.left)
    ensures o.Right? ==> r == d2.step(o.right)
  {
    Elim(o, (v: T1) => d1.Apply(v), (v: T2) => d2.Apply(v))
  }

  /** Eliminating a left introduction consults only the left sub-proof. */
  lemma OrEOrI1<T1, T2, T3>(v: T1, d1: Deduction<T1, T3>, d2: Deduction<T2, T3>)
    ensures OrE(OrI1(v), d1, d2) == d1.Apply(v)
    ensures forall d2': Deduction<T2, T3> :: OrE(OrI1(v), d1, d2') == OrE(OrI1(v), d1, d2)
  {
  }

  /** Eliminating a right introduction consults only the right sub-proof. */
  lemma OrEOrI2<T1, T2, T3>(v: T2, d1: Deduction<T1, T3>, d2: Deduction<T2, T3>)
    ensures OrE(OrI2(v), d1, d2) == d2.Apply(v)
    ensures forall d1': Deduction<T1, T3> :: OrE(OrI2(v), d1', d2) == OrE(OrI2(v), d1, d2)
  {
  }

  /** Introducing with a sub-proof and eliminating is beta-reduction. */
  lemma ImplyBeta<T1, T2>(d: Deduction<T1, T2>, v: T1)
    ensures Imply(d).ImplyE(v) == d.Apply(v)
  {
  }

  /*
    The Java `or_e` as it is written. Inside class `Or`, the calls
    `this.left()` and `this.right()` bind to the private getters of `Or`
    itself, which return null; private methods are not overridden, so the
    public getters of `Left` and `Right` are never reached. A Java reference
    may be null, so a Java `Deduction<T1, T3>` is, in truth, a function on
    nullable T1 evidence.
   */

  /** A Java reference to evidence of T: either null or an object. */
  datatype Nullable<T> = Null | Ref(value: T)

  /** Or-elimination exactly as written: the matching branch runs, but on null. */
  function OrEAsWritten<T1, T2, T3>(o: Or<T1, T2>, d1: Deduction<Nullable<T1>, T3>,
                                    d2: Deduction<Nullable<T2>, T3>): (r: T3)
    ensures o.Left? ==> r == d1.step(Null)
    ensures o.Right? ==> r == d2.step(Null)
  {
    if o.Left? then d1.Apply(Null) else d2.Apply(Null)
  }

  /** As written, the result of or-elimination never depends on the payload. */
  lemma OrEAsWrittenIgnoresPayload<T1, T2, T3>(o: Or<T1, T2>, o': Or<T1, T2>,
                                               d1: Deduction<Nullable<T1>, T3>,
                                               d2: Deduction<Nullable<T2>, T3>)
    requires o.Left? <==> o'.Left?
    ensures OrEAsWritten(o, d1, d2) == OrEAsWritten(o', d1, d2)
  {
  }

  /**
    The concrete discrepancy: eliminating `or_i1(7)` with the identity
    sub-proof yields null as written, where the documented rule (and the
    corrected `OrE`, given the same sub-proof on non-null references) yields
    the payload 7.
   */
  lemma OrEAsWrittenLosesPayload()
    ensures var id := Deduction((n: Nullable<int>) => n);
            && OrEAsWritten(OrI1(7), id, id) == Null
            && OrE(OrI1(7), Deduction((v: int) => id.Apply(Ref(v))),
                   Deduction((v: int) => id.Apply(Ref(v)))) == Ref(7)
  {
  }
}
