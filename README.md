# Halo2 prover orchestration and MSM benchmark configuration, in Dafny

This project models three parts of the tachyon zero-knowledge library.

- **The Halo2 prover** (`tachyon/zk/plonk/halo2/prover.h`). It drives one proof through four rounds:
  1. squeeze theta and commit the lookup permuted pairs;
  2. squeeze beta and gamma and commit the permutation and lookup grand products and the random polynomial;
  3. squeeze y and commit the pieces of the quotient polynomial h;
  4. squeeze x, evaluate, build the evaluation point set, assemble the list of polynomial openings and write the opening proof.

  A commitment scheme that supports batch mode is told how many commitments each batch will hold. It then receives them slot by slot and writes the whole batch once it is full.
- **The vanishing argument** (`tachyon/zk/plonk/vanishing/vanishing_prover.h`). This covers its counting rules (one random-poly commitment, `ComputeDegree() - 1` quotient pieces, the number of openings it accounts for), the openings of circuit columns it emits, and the life cycle of its members.
- **The MSM benchmark configuration** (`benchmark/msm/msm_config.cc`). This covers the value parsers of `--test_set`, `--vendor` and `--algo`, the vendor printer, the sorting of the `-n` degrees after a successful parse, and the point counts `1 << degree`.

Field elements and polynomials are opaque types. A commitment, a transcript entry and an opening are identified by what they bind, so the model tracks *which* values are written, squeezed and opened, and in *which order*, not their arithmetic.

The transcript is an append-only sequence of events. `ProverBase.Log()` is the transcript as it will read once the pending batch is written. Every commit method is specified against `Log()`, so batch mode and immediate mode provably leave the same transcript.

`ProofTranscript` is the independent reference for a whole proof. It starts with the verifying key, then holds what the argument data writes: the advice and instance commitments and the auxiliary challenges of custom gates. The lemmas about it show that:
- after the auxiliary challenges, the five named challenges are squeezed once each, in the order theta, beta, gamma, y, x;
- each named challenge binds exactly the commitments written before it. Theta binds the argument data's advice and instance commitments, and each later challenge also binds the batches committed since.

The lookup and permutation sub-provers are represented only by their counts: commitments per batch, and the openings each predicts and emits. So the `CHECK_EQ` at the end of `Open` is modelled, and it fails exactly when those counts disagree.

A failing `CHECK` is modelled as an `Aborted` result rather than as a precondition.

Modules:
- `Protocol` (`protocol.dfy`): the shared vocabulary.
- `ProverBase` (`prover_base.dfy`): transcript, batch accumulator and blinder.
- `Vanishing` (`vanishing.dfy`).
- `Halo2` (`prover.dfy`).
- `MsmConfig` (`msm_config.dfy`).

## Model

| member | source | states |
|---|---|---|
| MsmConfig.TestSetName | benchmark/msm/msm_config.cc:16-18 | each test set is spelled as one of the two names the parser accepts and the help text of --test_set advertises |
| MsmConfig.TestSetRoundTrip | benchmark/msm/msm_config.cc:14-25 | parsing the spelling of any test set gives that test set back |
| MsmConfig.ParseTestSet | benchmark/msm/msm_config.cc:14-25 | accepts exactly the two advertised spellings and stores the matching test set; any other input is refused with "Unknown test set: " and the input |
| MsmConfig.ParseVendor | benchmark/msm/msm_config.cc:31-44 | accepts exactly the strings the vendor printer produces and stores that vendor; anything else is refused with "Unknown vendor: " and the input |
| MsmConfig.VendorToString | benchmark/msm/msm_config.cc:50-61 | every vendor is printed as one of the three spellings "arkworks", "bellman", "halo2", never the empty string after NOTREACHED |
| MsmConfig.VendorRoundTrip | benchmark/msm/msm_config.cc:31-61 | parsing the printed name of any vendor gives that vendor back |
| MsmConfig.VendorToStringInjective | benchmark/msm/msm_config.cc:50-58 | no two vendors are printed the same |
| MsmConfig.ParseAlgorithm | benchmark/msm/msm_config.cc:90-99 | "bellman_msm" stores 0 and "cuzk" stores 1, both ways round; everything else is refused with "Not supported algorithm: " and the argument |
| MsmConfig.SortAscending | benchmark/msm/msm_config.cc:114 | the result is sorted ascending and is a permutation (same multiset) of the degrees |
| MsmConfig.Config.Parse | benchmark/msm/msm_config.cc:63-116 | the result is the flag parser's verdict; on failure the degrees are left as parsed and unsorted; on success they are sorted and a permutation of what was parsed |
| MsmConfig.IntShiftToU64 | benchmark/msm/msm_config.cc:121 | `1 << degree` on a 32-bit int, then widened to uint64: 2^degree up to degree 30, and 2^64 - 2^31 at degree 31 |
| MsmConfig.Int32OfPow2 | benchmark/msm/msm_config.cc:121 | 2^degree fits an int32 up to degree 30; 2^31 wraps to -2^31, which becomes 2^64 - 2^31 as uint64 |
| MsmConfig.IntShiftWrongAtDegree31 | benchmark/msm/msm_config.cc:121 | at degree 31 the point count as written differs from 2^31 |
| MsmConfig.U64Shift | benchmark/msm/msm_config.cc:121 | a 64-bit shift yields exactly 2^degree below 2^64 for every degree below 64 |
| MsmConfig.Config.GetPointNums | benchmark/msm/msm_config.cc:118-124 | one point count per degree, in order, each the 32-bit shift as written; it equals 2^degree wherever degree <= 30, and sorted degrees give non-decreasing point counts even as written |
| MsmConfig.IntShiftMonotone | benchmark/msm/msm_config.cc:121 | the point count as written never decreases as the degree grows up to 31, because the wrapped count at 31 exceeds 2^30 |
| MsmConfig.Config.GetPointNumsU64 | benchmark/msm/msm_config.cc:118-124 | corrected: the point counts are 2^degree for each degree in order, and sorted degrees give non-decreasing point counts |
| MsmConfig.SortedDegreesGiveSortedPointNums | benchmark/msm/msm_config.cc:114-124 | after the post-parse sort, the point counts come out non-decreasing |
| ProverBase.ProverBase.SqueezeChallenge | tachyon/zk/plonk/halo2/prover.h:143-144 | squeezing appends exactly that challenge to the transcript and changes nothing else the prover relies on |
| ProverBase.ProverBase.WriteToTranscript | tachyon/zk/plonk/halo2/prover.h:90-92 | appends exactly the written value to the transcript |
| ProverBase.ProverBase.SetBatchMode | tachyon/zk/plonk/halo2/prover.h:155-159 | enters batch mode with the declared size and an empty batch, leaving the transcript as it was |
| ProverBase.ProverBase.Log | tachyon/zk/plonk/halo2/prover.h:155-165 | the eventual transcript extends the written transcript, and is the written transcript whenever no commitment is pending |
| ProverBase.ProverBase.CommitAt | tachyon/zk/plonk/halo2/prover.h:160-162 | in batch mode it fills the next slot; otherwise it writes at once; either way the eventual transcript gains exactly this commitment, and the slot index advances by one |
| ProverBase.ProverBase.RetrieveAndWriteBatchCommitmentsToProof | tachyon/zk/plonk/halo2/prover.h:163-165 | a full batch is written in slot order; the transcript becomes what the commits promised and batch mode ends |
| Vanishing.GetNumRandomPolyCommitment | tachyon/zk/plonk/vanishing/vanishing_prover.h:34 | the random polynomial takes exactly one commitment slot, the one CommitRandomPoly fills |
| Vanishing.GetNumFinalHPolyCommitment | tachyon/zk/plonk/vanishing/vanishing_prover.h:51-55 | the quotient is committed as one piece fewer than the constraint-system degree |
| Vanishing.GetNumOpenings | tachyon/zk/plonk/vanishing/vanishing_prover.h:68-79 | the count covers at least the fixed queries plus the vanishing argument's own two, and at least one advice opening per advice query per circuit |
| Vanishing.GetNumOpeningsIgnoresInstances | tachyon/zk/plonk/vanishing/vanishing_prover.h:71-74 | when the scheme does not query instances, the instance queries do not affect the count |
| Vanishing.GetNumOpeningsPerCircuit | tachyon/zk/plonk/vanishing/vanishing_prover.h:68-79 | each extra circuit adds exactly that circuit's advice/instance openings; with no circuits the count is the fixed openings plus the vanishing argument's own openings |
| Vanishing.GetNumOpeningsMonotone | tachyon/zk/plonk/vanishing/vanishing_prover.h:68-79 | the count never decreases as circuits are added, and strictly grows when there is an advice query |
| Vanishing.AdviceInstanceOpenings | tachyon/zk/plonk/vanishing/vanishing_prover.h:69-85 | one circuit's instance and advice openings number exactly the per-circuit term of the count |
| Vanishing.ColumnOpenings | tachyon/zk/plonk/vanishing/vanishing_prover.h:81-91 | one opening per query, each of the given column kind and circuit |
| Vanishing.OpenColumns | tachyon/zk/plonk/vanishing/vanishing_prover.h:103-108 | appends one opening per query, in query order, for the given column kind and circuit, and keeps what was there |
| Vanishing.OpenAdviceInstanceColumns | tachyon/zk/plonk/vanishing/vanishing_prover.h:81-85 | appends one circuit's instance openings (when queried), then its advice openings |
| Vanishing.OpenFixedColumns | tachyon/zk/plonk/vanishing/vanishing_prover.h:87-91 | appends the fixed-column openings, taken from the first circuit's table |
| Vanishing.VanishingProver.constructor | tachyon/zk/plonk/vanishing/vanishing_prover.h:110-114 | all five members start empty |
| Vanishing.VanishingProver.CreateRandomPoly | tachyon/zk/plonk/vanishing/vanishing_prover.h:31-32 | stores the sampled blinded random polynomial and touches no other member |
| Vanishing.VanishingProver.CommitRandomPoly | tachyon/zk/plonk/vanishing/vanishing_prover.h:34-37 | commits the random polynomial as one slot, so the slot index advances by GetNumRandomPolyCommitment() |
| Vanishing.VanishingProver.CreateHEvals | tachyon/zk/plonk/vanishing/vanishing_prover.h:39-45 | stores the evaluations of h on the extended domain and touches no other member |
| Vanishing.VanishingProver.CreateFinalHPoly | tachyon/zk/plonk/vanishing/vanishing_prover.h:47-55 | stores the quotient and draws exactly GetNumFinalHPolyCommitment blinds, one per piece |
| Vanishing.VanishingProver.CommitFinalHPoly | tachyon/zk/plonk/vanishing/vanishing_prover.h:57-60 | commits the pieces of h in order, one slot each, advancing the slot index by GetNumFinalHPolyCommitment |
| Vanishing.VanishingProver.BatchEvaluate | tachyon/zk/plonk/vanishing/vanishing_prover.h:62-66 | stores the recombined h and writes its evaluations, with x_n the power of x given |
| Vanishing.VanishingProver.Open | tachyon/zk/plonk/vanishing/vanishing_prover.h:93-94 | appends exactly the two openings the count's constant 2 stands for |
| Halo2.CircuitMajorLength | tachyon/zk/plonk/halo2/prover.h:155-162 | a batch built circuit by circuit holds exactly the sum of the per-circuit counts |
| Halo2.BatchSizesMatch | tachyon/zk/plonk/halo2/prover.h:155-196 | the size declared to SetBatchMode before the permuted-pair batch and before the grand-product batch equals the number of commitments that batch receives |
| Halo2.LastRotation | tachyon/zk/plonk/halo2/prover.h:234-235 | the last usable row is blinding_factors + 1 rows before x |
| Halo2.Insert | tachyon/zk/plonk/halo2/prover.h:246-250 | the point set gains the inserted point and no other, keeps the points it had in their order, and stays free of duplicates |
| Halo2.InsertKeepsSet | tachyon/zk/plonk/halo2/prover.h:246-250 | inserting a new point lengthens the set by one; inserting a present point leaves the set unchanged |
| Halo2.EvaluationPoints | tachyon/zk/plonk/halo2/prover.h:246-250 | the point set has x first, holds exactly x, x_prev, x_next and x_last, has no duplicates and at most four points |
| Halo2.Prover.BuildPointSet | tachyon/zk/plonk/halo2/prover.h:246-250 | the four inserts, in the source's order, build exactly EvaluationPoints |
| Halo2.FourDistinctPoints | tachyon/zk/plonk/halo2/prover.h:232-250 | with at least one blinding row and a large enough domain, the point set is x, x_prev, x_next, x_last in that order, all distinct |
| Halo2.NoBlindingGivesThreePoints | tachyon/zk/plonk/halo2/prover.h:232-250 | with no blinding rows x_last is x_prev, and the point set holds only three points |
| Halo2.ProofTranscript | tachyon/zk/plonk/halo2/prover.h:89-255 | a proof transcript starts with the verifying key, then what the argument data wrote, then theta, and ends with the opening proof |
| Halo2.TranscriptSqueezesInOrder | tachyon/zk/plonk/halo2/prover.h:143-230 | after the argument data's auxiliary challenges, a proof transcript squeezes the five named challenges once each, as theta, beta, gamma, y, x |
| Halo2.TranscriptBindsCommitments | tachyon/zk/plonk/halo2/prover.h:94-230 | theta binds exactly the advice and instance commitments the argument data wrote; beta and gamma also bind the permuted pairs; y also binds the grand products and the random poly; x also binds the pieces of h |
| Halo2.CircuitOpeningsLength | tachyon/zk/plonk/halo2/prover.h:297-315 | the per-circuit openings number the vanishing count's per-circuit term plus what the sub-provers emit |
| Halo2.CircuitOpenings | tachyon/zk/plonk/halo2/prover.h:308-315 | every per-circuit opening is an advice column, an instance column (only when the scheme queries instances), a permutation or a lookup opening of one of the circuits |
| Halo2.OpeningList | tachyon/zk/plonk/halo2/prover.h:308-321 | the fixed columns are opened only from the first circuit, instance columns only when queried, advice and instance openings belong to one of the circuits, and the vanishing argument's two openings come last |
| Halo2.OpeningListLength | tachyon/zk/plonk/halo2/prover.h:297-322 | the opening list has the predicted size exactly when the sub-provers emit, in total, what they predict |
| Halo2.Prover.CreateFromRNG | tachyon/zk/plonk/halo2/prover.h:55-62 | the generator draws from the given RNG, the blinder from that generator with the given blinding factors, and the transcript is empty |
| Halo2.Prover.CreateFromSeed | tachyon/zk/plonk/halo2/prover.h:45-53 | as CreateFromRNG, with an RNG seeded from the caller's bytes |
| Halo2.Prover.CreateFromRandomSeed | tachyon/zk/plonk/halo2/prover.h:36-43 | as CreateFromRNG, with an RNG seeded from the supplied entropy |
| Halo2.Prover.SetRng | tachyon/zk/plonk/halo2/prover.h:113-118 | replaces the RNG, builds a generator over it and a blinder over that with the old blinding factors, and leaves the transcript alone |
| Halo2.Prover.CommitInOrder | tachyon/zk/plonk/halo2/prover.h:160-162 | commits a sequence slot by slot: the eventual transcript gains exactly those commitments in order, and the slot index advances by their number |
| Halo2.Prover.PermutedPairsRound | tachyon/zk/plonk/halo2/prover.h:143-165 | the transcript gains theta, then the permuted-pair commitments circuit by circuit, in both batch and immediate mode |
| Halo2.Prover.GrandProductRound | tachyon/zk/plonk/halo2/prover.h:167-196 | the transcript gains beta and gamma, then the permutation products, the lookup products and the random poly commitment; the vanishing argument holds the sampled random poly and its other members are unchanged |
| Halo2.Prover.QuotientRound | tachyon/zk/plonk/halo2/prover.h:198-228 | the transcript gains y, then the commitments to the ComputeDegree() - 1 pieces of h; the vanishing argument holds the evaluations and the quotient with one blind per piece, and keeps its random poly |
| Halo2.Prover.Evaluate | tachyon/zk/plonk/halo2/prover.h:258-281 | writes, in order: the vanishing evaluations with x_n = x^N, the permutation key's and the permutation provers' evaluations at their points, then the lookup provers'; the vanishing argument holds the recombined h and keeps its other members |
| Halo2.Prover.OpeningRound | tachyon/zk/plonk/halo2/prover.h:230-255 | squeezes x, evaluates, builds the point set and opens; it aborts on an opening-count mismatch or a failed opening proof, and otherwise writes the opening proof; in every case the prover stays valid with its blinder, and the vanishing argument ends evaluated, holding the recombined h |
| Halo2.Prover.Open | tachyon/zk/plonk/halo2/prover.h:283-324 | succeeds exactly when the counts agree, returning the openings in emission order with the predicted size |
| Halo2.Prover.CheckInstances | tachyon/zk/plonk/halo2/prover.h:81-87 | passes exactly when there is one instance vector per circuit and each has the key's number of instance columns |
| Halo2.Prover.CreateProof | tachyon/zk/plonk/halo2/prover.h:75-100 | aborts on an instance mismatch before writing anything, including for an empty batch; otherwise it proves exactly when the counts agree and the opening proof succeeds, leaving the full proof transcript, the opening list and the point set, all built with the prover's own blinding factors, which it keeps; the prover stays valid for further use |
| Halo2.Prover.WriteArgumentData | tachyon/zk/plonk/halo2/prover.h:96-98 | the transcript gains exactly the argument data's writes, in order |
| Halo2.Prover.Prove | tachyon/zk/plonk/halo2/prover.h:120-256 | after the argument data exists: the three commit rounds and the opening round, with the same abort conditions; on success the transcript gains exactly the protocol's events; the prover stays valid and keeps its blinder |

## Left out

- Field and polynomial arithmetic are left out: compressing, permuting and grand-product construction in the sub-provers, the extended-domain evaluation of h, its splitting and recombination, and evaluation values. The values are opaque, and the model tracks only what is committed, squeezed, evaluated and opened.
- The internals of the lookup and permutation sub-provers are not part of this model. Each is described by its commitment counts and its predicted and emitted opening counts.
- `vanishing_prover_impl.h` is not part of this model. Two orders follow Halo2: instance openings before advice openings within a circuit, and the quotient before the random polynomial in the vanishing argument's own openings.
- `OpenColumns` also inserts each opening point into the point set. The model does not track that, and builds the point set only from the four `Insert` calls in `CreateProof`.
- Halo2.PointOf: a point x·ω^r is represented by r mod N. This assumes x is nonzero and ω has order N. The int32 cast of the last rotation is not modelled.
- The XORShift RNG and the random field generator are identified by their seed. Drawing values from them is modelled as arbitrary values.
- Halo2.Prover.CreateFromRandomSeed: the operating system's entropy is a parameter.
- Halo2.Prover.CreateFromRNG, Halo2.Prover.CreateFromSeed and Halo2.Prover.CreateFromRandomSeed require N >= 1, which holds because N = 2^k. The transcript writer is taken to start empty.
- `ToVerifier`, the `rng()` and `generator()` accessors, `VLOG` output, and the deallocation of columns and fixed polynomials after the y round are left out. The first three are outside the proof flow; the deallocation has no effect on what is written.
- The `CHECK` around writing the verifying key is taken to succeed, because the transcript writer is not modelled.
- Halo2.Prover.Prove and Halo2.Prover.OpeningRound require at least one circuit, because they call Open.
- Halo2.Prover.Open requires at least one circuit, because the source reads `poly_tables[0]`, which is undefined for an empty batch. Halo2.Prover.CreateProof requires it only when the instance check passes: with no circuits and a non-empty instance list it aborts before that read.
- `argument_data.h` is not part of this model. What `ArgumentData::Create` writes is the parameter `argumentData` of Halo2.Prover.CreateProof. It is taken to hold only advice and instance commitments and auxiliary challenges, written in the given order through the transcript. Which columns it commits, and how many auxiliary challenges it squeezes, is not modelled.
- Vanishing.GetNumFinalHPolyCommitment requires a constraint-system degree of at least 1. The source subtracts 1 from a `size_t`, and Halo2 degrees are at least 3.
- Counts are unbounded naturals; `size_t` overflow in the counts is not modelled.
- The flag parser itself, `argv`, and the error message printed to `tachyon_cerr` on a failed parse are not part of this model. `Config.Parse` receives the degrees the parser stored and whether it accepted the command line.
- `--check_results`, the storage of `--test_set` and `--vendor` into the config, and the `include_vendors` / `include_algos` options are not modelled beyond the value parsers. The defaults in `msm_config.h` are not part of this model.
- MsmConfig.Config.GetPointNums requires every degree to be at most 31, because `1 << degree` on an int is undefined behaviour for larger shifts.

## Findings

| source | as written | input that shows it | evidently intended | confidence | as-written member | corrected member |
|---|---|---|---|---|---|---|
| benchmark/msm/msm_config.cc:121 | `point_nums.push_back(1 << degree)` shifts the int literal 1, so the count is computed in 32 bits before widening to uint64 | `-n 31`: `1 << 31` is INT_MIN, which widens to 18446744071562067968 instead of 2147483648. `-n 32` and above are undefined behaviour | `uint64_t{1} << degree`, giving 2^degree for every degree below 64 | high, not executed | MsmConfig.IntShiftWrongAtDegree31 | MsmConfig.Config.GetPointNumsU64 |
