# Curry-Howard connectives in Dafny

A model of a small proofs-as-programs library. Propositions are types and
evidence of a proposition is a value of its type. Each inference rule of
natural deduction is an operation on evidence:

- conjunction (`^i`, `^e1`, `^e2`) is a pair with two projections;
- disjunction (`vi1`, `vi2`, `ve`) is a tagged sum, and elimination runs
  the one sub-proof that matches the tag;
- implication (`->i`, `->e`) wraps a sub-proof ("assume A, derive B"),
  and elimination activates it (modus ponens);
- the worked proofs compose these rules. Each one produces evidence that
  the contracts state in closed form. For example, the S-combinator proof
  yields `h(p)(g(p))`.

The repository writes the library twice. The model keeps both encodings
and proves that they agree:

- `Disjunction` (`disjunction.dfy`): the tagged sum `Or<A, B> = Left | Right`
  that both files mean, with its introductions and case analysis. Python's
  `or_e` is `Disjunction.Elim`.
- `JavaRules` (`java_rules.dfy`): the Java classes `And`, `Deduction`
  (`apply` delegates to `deduction_step`) and `Imply`. It also holds
  `or_e` with `Deduction` branches, both as documented and as written (see
  Findings).
- `JavaProofs` (`java_proofs.dfy`): `and_example`, `or_example`,
  `example1`, `example11`, `example12`, `example2`, `example3` and
  `example4`. The Python `or_example`
  (`Curry-Howard-Isomorphism-In-Java/src/curry_howard.py:322-326`) builds
  the same value from the same two introductions, so it is
  `JavaProofs.OrExample`.
- `PythonRules` (`python_rules.dfy`): conjunction as a 2-tuple,
  and implication as a bare closure (`imply_i` and `imply_e`).
- `PythonProofs` (`python_proofs.dfy`): `and_example` and `example1` to
  `example6`.
- `Agreement` (`agreement.dfy`): translates Java evidence into Python
  evidence. A conjunction object becomes a tuple. An implication object
  becomes the function its deduction computes. Under this translation,
  every Java proof gives the same result as its Python twin. For Java's
  `example2` this holds with the documented `or_e`, not the one written
  (see Findings).

The placeholder proposition classes `P`, `Q`, `R` are type parameters.
Dafny has no function extensionality. So a contract about a proof that
returns an implication is stated pointwise: it says what eliminating the
result gives, for every argument.

## Model

| member | source | states |
|---|---|---|
| Disjunction.OrI1 | Curry-Howard-Isomorphism-In-Java/src/Curry_Howard_Isomorphism.java:153-155 | or_i1 tags its evidence left and carries exactly that evidence |
| Disjunction.OrI2 | Curry-Howard-Isomorphism-In-Java/src/Curry_Howard_Isomorphism.java:176-178 | or_i2 tags its evidence right and carries exactly that evidence |
| Disjunction.Elim | Curry-Howard-Isomorphism-In-Java/src/curry_howard.py:186-193 | or_e on a left value returns the left sub-proof applied to the payload; on a right value, the right sub-proof applied to the payload |
| Disjunction.ElimOrI1 | Curry-Howard-Isomorphism-In-Java/src/curry_howard.py:186-189 | eliminating or_i1(a) is the left sub-proof applied to a |
| Disjunction.ElimOrI2 | Curry-Howard-Isomorphism-In-Java/src/curry_howard.py:190-191 | eliminating or_i2(b) is the right sub-proof applied to b |
| Disjunction.ElimIgnoresOtherBranch | Curry-Howard-Isomorphism-In-Java/src/curry_howard.py:163-170 | exactly one branch is consulted: swapping the sub-proof of the other tag never changes the result |
| Disjunction.ElimWithIntroductions | Curry-Howard-Isomorphism-In-Java/src/curry_howard.py:84-96 | eliminating with the two introductions as branches rebuilds the same disjunction, tag and payload |
| Disjunction.ElimDetermines | Curry-Howard-Isomorphism-In-Java/src/curry_howard.py:84-96 | two disjunctions that every pair of branches eliminates alike are equal, so the sum is nothing but its tag and payload |
| Disjunction.LeftAndRightAreDistinguishable | Curry-Howard-Isomorphism-In-Java/src/curry_howard.py:72-79 | for any payloads, some pair of branches tells a left-tagged value from a right-tagged one |
| JavaRules.AndRoundTrip | Curry-Howard-Isomorphism-In-Java/src/Curry_Howard_Isomorphism.java:50-86 | new And(x, y).and_e1() is x and new And(x, y).and_e2() is y |
| JavaRules.AndFromProjections | Curry-Howard-Isomorphism-In-Java/src/Curry_Howard_Isomorphism.java:31-87 | a conjunction is rebuilt by pairing its two projections |
| JavaRules.Imply.ImplyE | Curry-Howard-Isomorphism-In-Java/src/Curry_Howard_Isomorphism.java:310-312 | imply_e activates the wrapped deduction exactly once: going through apply, the result is its deduction step on the given evidence |
| JavaRules.ImplyBeta | Curry-Howard-Isomorphism-In-Java/src/Curry_Howard_Isomorphism.java:288-312 | new Imply(d).imply_e(v) is d.apply(v), which is d's deduction step on v |
| JavaRules.OrE | Curry-Howard-Isomorphism-In-Java/src/Curry_Howard_Isomorphism.java:191-195 | or_e as documented: a Left value activates d1 on its payload, a Right value activates d2 on its payload |
| JavaRules.OrEOrI1 | Curry-Howard-Isomorphism-In-Java/src/Curry_Howard_Isomorphism.java:202-204 | or_i1(v).or_e(d1, d2) is d1.apply(v), and no choice of d2 changes it |
| JavaRules.OrEOrI2 | Curry-Howard-Isomorphism-In-Java/src/Curry_Howard_Isomorphism.java:205-207 | or_i2(v).or_e(d1, d2) is d2.apply(v), and no choice of d1 changes it |
| JavaRules.OrEAsWritten | Curry-Howard-Isomorphism-In-Java/src/Curry_Howard_Isomorphism.java:202-207 | or_e as written: the branch matching the tag runs, but on null, because the private getters of Or are the ones called |
| JavaRules.OrEAsWrittenIgnoresPayload | Curry-Howard-Isomorphism-In-Java/src/Curry_Howard_Isomorphism.java:119-120 | as written, two disjunctions with the same tag eliminate alike whatever their payloads |
| JavaRules.OrEAsWrittenLosesPayload | Curry-Howard-Isomorphism-In-Java/src/Curry_Howard_Isomorphism.java:119-125 | or_i1(7) eliminated with the identity yields null as written, and 7 under the documented rule |
| JavaProofs.AndExample | Curry-Howard-Isomorphism-In-Java/src/Curry_Howard_Isomorphism.java:362-368 | p ^ q proves q ^ p: the result's first projection is the premise's second, and the reverse |
| JavaProofs.AndExampleInvolution | Curry-Howard-Isomorphism-In-Java/src/Curry_Howard_Isomorphism.java:353-368 | swapping a conjunction twice gives back the premise |
| JavaProofs.OrExample | Curry-Howard-Isomorphism-In-Java/src/Curry_Howard_Isomorphism.java:378-383 | q proves p v q v r with evidence Left(Right(q)) |
| JavaProofs.OrExampleElim | Curry-Howard-Isomorphism-In-Java/src/Curry_Howard_Isomorphism.java:370-383 | eliminating that evidence with nested case analysis always reaches the q branch, on q |
| JavaProofs.Example1 | Curry-Howard-Isomorphism-In-Java/src/Curry_Howard_Isomorphism.java:397-405 | the result is the (p ^ q) -> r deduction applied to the pair of p and the p -> q deduction's result on p |
| JavaProofs.Example11 | Curry-Howard-Isomorphism-In-Java/src/Curry_Howard_Isomorphism.java:416-422 | the result is the (p v q) -> r deduction applied to q tagged right |
| JavaProofs.Example12 | Curry-Howard-Isomorphism-In-Java/src/Curry_Howard_Isomorphism.java:435-450 | the derived q -> r sends every q to (q ^ p) -> r eliminated on the pair of q and p |
| JavaProofs.Example2 | Curry-Howard-Isomorphism-In-Java/src/Curry_Howard_Isomorphism.java:469-503 | the derived (p v q) -> r gives p -> r's result on or_i1(p) and q -> r's result on or_i2(q) |
| JavaProofs.Example2Restricts | Curry-Howard-Isomorphism-In-Java/src/Curry_Howard_Isomorphism.java:469-503 | restricting any (p v q) -> r to the two introductions and recombining with example2 gives back an implication that agrees with it on every disjunction |
| JavaProofs.Example2AsWritten | Curry-Howard-Isomorphism-In-Java/src/Curry_Howard_Isomorphism.java:469-503 | example2 on the or_e as written: on or_i1(p) it gives p -> r applied to null, and on or_i2(q) it gives q -> r applied to null |
| JavaProofs.Example2AsWrittenLosesPayload | Curry-Howard-Isomorphism-In-Java/src/Curry_Howard_Isomorphism.java:494 | with the identity as p -> r, the as-written example2 sends or_i1(7) to null, and the documented one sends it to 7 |
| JavaProofs.Example3 | Curry-Howard-Isomorphism-In-Java/src/Curry_Howard_Isomorphism.java:514-527 | the derived p -> (q ^ p) sends every p to a conjunction whose projections are q and that p |
| JavaProofs.Example4 | Curry-Howard-Isomorphism-In-Java/src/Curry_Howard_Isomorphism.java:542-566 | example4(h).imply_e(g).imply_e(p) equals h.imply_e(p).imply_e(g.imply_e(p)) for every g and p |
| PythonRules.AndI | Curry-Howard-Isomorphism-In-Java/src/curry_howard.py:21-58 | and_e1(and_i(p, q)) is p and and_e2(and_i(p, q)) is q |
| PythonRules.AndE1 | Curry-Howard-Isomorphism-In-Java/src/curry_howard.py:39-40 | and_e1 returns the first item: the pair is exactly that evidence beside the pair's second item |
| PythonRules.AndE2 | Curry-Howard-Isomorphism-In-Java/src/curry_howard.py:57-58 | and_e2 returns the second item: the pair is exactly the pair's first item beside that evidence |
| PythonRules.ImplyI | Curry-Howard-Isomorphism-In-Java/src/curry_howard.py:237-245 | imply_i(d) is a function that agrees with d on every evidence of P |
| PythonRules.ImplyE | Curry-Howard-Isomorphism-In-Java/src/curry_howard.py:270-272 | imply_e(f, p) is modus ponens: the evidence of P -> Q applied to p |
| PythonRules.AndFromProjections | Curry-Howard-Isomorphism-In-Java/src/curry_howard.py:21-58 | a pair is rebuilt by and_i from its two projections |
| PythonRules.ImplyBeta | Curry-Howard-Isomorphism-In-Java/src/curry_howard.py:237-272 | imply_e(imply_i(d), p) is d(p) |
| PythonProofs.AndExample | Curry-Howard-Isomorphism-In-Java/src/curry_howard.py:308-313 | p ^ q proves q ^ p: the result's items are the premise's items swapped |
| PythonProofs.AndExampleInvolution | Curry-Howard-Isomorphism-In-Java/src/curry_howard.py:300-313 | swapping a pair twice gives back the premise |
| PythonProofs.Example1 | Curry-Howard-Isomorphism-In-Java/src/curry_howard.py:339-346 | example1(f, g, p) is f(and_i(p, g(p))) |
| PythonProofs.Example2 | Curry-Howard-Isomorphism-In-Java/src/curry_howard.py:356-361 | example2(f, q) is f(or_i2(q)) |
| PythonProofs.Example3 | Curry-Howard-Isomorphism-In-Java/src/curry_howard.py:373-383 | example3(p, h) applied to any q is h(and_i(q, p)) |
| PythonProofs.Example4 | Curry-Howard-Isomorphism-In-Java/src/curry_howard.py:402-419 | example4(f, g) applied to or_i1(p) is f(p), and applied to or_i2(q) is g(q) |
| PythonProofs.Example5 | Curry-Howard-Isomorphism-In-Java/src/curry_howard.py:429-437 | example5(q) applied to any p is a pair whose projections are q and p |
| PythonProofs.Example6 | Curry-Howard-Isomorphism-In-Java/src/curry_howard.py:452-467 | example6(h) applied to any g and then to any p is h(p)(g(p)) |
| Agreement.PairKeepsProjections | Curry-Howard-Isomorphism-In-Java/src/curry_howard.py:287-288 | a Java conjunction translated to a pair keeps both projections |
| Agreement.ArrowKeepsElimination | Curry-Howard-Isomorphism-In-Java/src/curry_howard.py:296-297 | a Java implication translated to a function gives, on every argument, what imply_e gives |
| Agreement.AndExamplesAgree | Curry-Howard-Isomorphism-In-Java/src/curry_howard.py:308-313 | the Java and Python and_example produce the same conjunction |
| Agreement.Example1Agrees | Curry-Howard-Isomorphism-In-Java/src/curry_howard.py:339-346 | the Java and Python example1 produce the same evidence of r |
| Agreement.Example11Agrees | Curry-Howard-Isomorphism-In-Java/src/curry_howard.py:356-361 | Java example11 and Python example2 produce the same evidence of r |
| Agreement.Example12Agrees | Curry-Howard-Isomorphism-In-Java/src/curry_howard.py:373-383 | Java example12 and Python example3 give implications that agree on every q |
| Agreement.Example2Agrees | Curry-Howard-Isomorphism-In-Java/src/curry_howard.py:402-419 | Java example2 and Python example4 give implications that agree on every disjunction |
| Agreement.Example3Agrees | Curry-Howard-Isomorphism-In-Java/src/curry_howard.py:429-437 | Java example3 and Python example5 give implications that agree on every p |
| Agreement.Example4Agrees | Curry-Howard-Isomorphism-In-Java/src/curry_howard.py:452-467 | Java example4 and Python example6 agree on every p -> q and every p |

## Findings

| source | as written | input that shows it | evidently intended | confidence | as-written member | corrected member |
|---|---|---|---|---|---|---|
| Curry-Howard-Isomorphism-In-Java/src/Curry_Howard_Isomorphism.java:202-207 | `or_e` passes `this.left()` / `this.right()` to the branch. Inside class `Or` these calls bind to the private getters of `Or` (:119-120), which return null. Private methods are not overridden by `Left.left()` / `Right.right()` | `or_i1(7).or_e(d1, d2)` where `d1` is the identity: the result is null | `d1.apply(7)`, which is 7, as the comment at :191-195 and the Python `or_e` say | high; not executed | `JavaRules.OrEAsWritten`, shown by `JavaRules.OrEAsWrittenLosesPayload` and `JavaRules.OrEAsWrittenIgnoresPayload`; carried into `example2` (:494) by `JavaProofs.Example2AsWritten` and `JavaProofs.Example2AsWrittenLosesPayload` | `JavaRules.OrE`, proved by `JavaRules.OrEOrI1` and `JavaRules.OrEOrI2`; `JavaProofs.Example2` uses it |

The rest of the model uses the corrected `JavaRules.OrE`. A Java reference
may be null, so the as-written member takes branches that accept a
`Nullable` argument. Nowhere else is null modelled.

## Left out

- The classes `P`, `Q`, `R` (`Curry_Howard_Isomorphism.java:3-7`) are type parameters, not classes.
- The Python `unittest` harness and its `print` calls (`curry_howard.py:478-544`) are I/O. They call the proofs with string evidence; as the file is written they cannot run at all (next line).
- Java's public no-argument `Or()` constructor (`Curry_Howard_Isomorphism.java:117`) can build a value that is neither `Left` nor `Right`. `or_e` would then take its `else` branch. The `Or` datatype cannot represent such a value.
- Python's string tags and the catch-all `else` of `or_e` (`curry_howard.py:188-191`) are left out. There, any tag other than `"left"` counts as right. Ill-tagged pairs cannot be represented.
- `or_e` in `curry_howard.py:186-193` indents line 187 (and 193) with two spaces and lines 188-192 with tabs. Python rejects that indentation when it compiles the module (Python 3 as inconsistent tabs and spaces, Python 2 as an unexpected indent), so as written the module does not load and none of its functions, nor the test harness, can be called. The model gives every Python function the meaning its body evidently has, with `or_e` as `Disjunction.Elim`; no member models the failure to load.
- The getters `Or.left()` / `Or.right()` and `Left.left()` / `Right.right()` (`Curry_Howard_Isomorphism.java:119-131`) are not separate operations. The datatype's constructors and case analysis replace them. Null appears only in the finding above.
- Java's inner-class versus nested-class mechanics, anonymous `Deduction` subclasses and `instanceof` dispatch are not modelled. A deduction is a pure, total Dafny function, and the tag is the datatype constructor.
- No contract counts calls. "Exactly one branch is activated" is stated as equality with the matching branch's result, plus independence from the other branch (`Disjunction.ElimIgnoresOtherBranch`, `JavaRules.OrEOrI1`, `JavaRules.OrEOrI2`).
- Evidence is modelled as values, not heap objects. Aliasing and object identity are left out. Contracts that quantify over evidence need type parameters marked `(!new)`, which means types without heap references.
- JavaProofs.Example2, JavaProofs.Example2Restricts and Agreement.Example2Agrees are stated for the documented `or_e` (`JavaRules.OrE`), not the one the Java file runs. As written, `example2` hands its inner sub-proofs null (see Findings), which `JavaProofs.Example2AsWritten` models.
