/**
 * The vanishing (quotient) argument: its counting rules, the openings of the
 * circuit columns it is responsible for, and the lifecycle of its state.
 */
module Vanishing {
  import opened Protocol
  import opened ProverBase

  /** A query of a column at a row offset (rotation) from the challenge point x. */
  datatype Query = Query(column: nat, rotation: int)

  /**
   * The parts of a constraint system the prover counts with. `degree` is the
   * value of ComputeDegree(); its computation from the gates is not modelled.
   */
  datatype ConstraintSystem = ConstraintSystem(
    adviceQueries: seq<Query>,
    instanceQueries: seq<Query>,
    fixedQueries: seq<Query>,
    numInstanceColumns: nat,
    degree: nat)

  /** Number of commitments to the random polynomial. */
  function GetNumRandomPolyCommitment(): (n: nat)
    ensures n == 1
  {
    1
  }

  /** Number of pieces the quotient polynomial is split into and committed as (size_t). */
  function GetNumFinalHPolyCommitment(cs: ConstraintSystem): (n: nat)
    requires cs.degree >= 1
    ensures n < cs.degree && cs.degree - n == 1
  {
    cs.degree - 1
  }

  /** Openings of one circuit's instance (when the scheme queries them) and advice columns. */
  function PerCircuitOpeningCount(queryInstance: bool, cs: ConstraintSystem): nat {
    |cs.adviceQueries| + (if queryInstance then |cs.instanceQueries| else 0)
  }

  /**
   * The number of openings the vanishing argument accounts for: advice (and
   * instance) queries per circuit, fixed queries once, and its own two.
   */
  function GetNumOpenings(queryInstance: bool, numCircuits: nat, cs: ConstraintSystem): (n: nat)
    ensures n >= |cs.fixedQueries| + 2
    ensures n >= numCircuits * |cs.adviceQueries|
  {
    PerCircuitOpeningCount(queryInstance, cs) * numCircuits + |cs.fixedQueries| + 2
  }

  /** Without instance queries, the count does not see the instance queries at all. */
  lemma GetNumOpeningsIgnoresInstances(numCircuits: nat, cs: ConstraintSystem, others: seq<Query>)
    ensures GetNumOpenings(false, numCircuits, cs)
         == GetNumOpenings(false, numCircuits, cs.(instanceQueries := others))
  {
  }

  /**
   * One more circuit adds exactly that circuit's advice/instance openings:
   * fixed queries and the constant two are counted once, whatever the number of circuits.
   */
  lemma GetNumOpeningsPerCircuit(queryInstance: bool, numCircuits: nat, cs: ConstraintSystem, circuit: nat)
    ensures GetNumOpenings(queryInstance, numCircuits + 1, cs)
         == GetNumOpenings(queryInstance, numCircuits, cs) + |AdviceInstanceOpenings(queryInstance, cs, circuit)|
    ensures GetNumOpenings(queryInstance, 0, cs) == |FixedOpenings(cs)| + |OwnOpenings()|
  {
  }

  /** The count never decreases with more circuits, and grows when there is an advice query. */
  lemma GetNumOpeningsMonotone(queryInstance: bool, m: nat, n: nat, cs: ConstraintSystem)
    requires m <= n
    ensures GetNumOpenings(queryInstance, m, cs) <= GetNumOpenings(queryInstance, n, cs)
    ensures m < n && |cs.adviceQueries| > 0 ==>
              GetNumOpenings(queryInstance, m, cs) < GetNumOpenings(queryInstance, n, cs)
  {
  }

  /** The openings of `queries` on columns of the given kind, in query order. */
  function ColumnOpenings(kind: ColumnKind, circuit: nat, queries: seq<Query>): (r: seq<Opening>)
    ensures |r| == |queries|
    ensures forall k :: 0 <= k < |r| ==> r[k].ColumnOpening? && r[k].kind == kind && r[k].circuit == circuit
  {
    seq(|queries|, i requires 0 <= i < |queries| =>
      ColumnOpening(kind, circuit, queries[i].column, queries[i].rotation))
  }

  /** One circuit's instance openings (when queried), then its advice openings. */
  function AdviceInstanceOpenings(queryInstance: bool, cs: ConstraintSystem, circuit: nat): (r: seq<Opening>)
    ensures |r| == PerCircuitOpeningCount(queryInstance, cs)
  {
    (if queryInstance then ColumnOpenings(InstanceColumn, circuit, cs.instanceQueries) else [])
      + ColumnOpenings(AdviceColumn, circuit, cs.adviceQueries)
  }

  /** The fixed-column openings, taken from the first circuit's table. */
  function FixedOpenings(cs: ConstraintSystem): (r: seq<Opening>)
    ensures |r| == |cs.fixedQueries|
  {
    ColumnOpenings(FixedColumn, 0, cs.fixedQueries)
  }

  /** The vanishing argument's own openings at x: the quotient and the random polynomial. */
  function OwnOpenings(): seq<Opening> {
    [HPolyOpening, RandomPolyOpening]
  }

  /** OpenColumns: appends one opening per query. */
  method OpenColumns(kind: ColumnKind, circuit: nat, queries: seq<Query>, openings: seq<Opening>)
    returns (result: seq<Opening>)
    ensures result == openings + ColumnOpenings(kind, circuit, queries)
    ensures |result| == |openings| + |queries|
  {
    result := openings;
    for i := 0 to |queries|
      invariant |result| == |openings| + i
      invariant result[..|openings|] == openings
      invariant forall k :: 0 <= k < i ==>
        result[|openings| + k] == ColumnOpening(kind, circuit, queries[k].column, queries[k].rotation)
    {
      result := result + [ColumnOpening(kind, circuit, queries[i].column, queries[i].rotation)];
    }
  }

  method OpenAdviceInstanceColumns(queryInstance: bool, cs: ConstraintSystem, circuit: nat, openings: seq<Opening>)
    returns (result: seq<Opening>)
    ensures result == openings + AdviceInstanceOpenings(queryInstance, cs, circuit)
  {
    result := openings;
    if queryInstance {
      result := OpenColumns(InstanceColumn, circuit, cs.instanceQueries, result);
    }
    result := OpenColumns(AdviceColumn, circuit, cs.adviceQueries, result);
  }

  /** OpenFixedColumns: the fixed columns are shared, so they are opened from table 0 only. */
  method OpenFixedColumns(cs: ConstraintSystem, openings: seq<Opening>) returns (result: seq<Opening>)
    ensures result == openings + FixedOpenings(cs)
  {
    result := OpenColumns(FixedColumn, 0, cs.fixedQueries, openings);
  }

  /** The commitments to the quotient pieces, in piece order. */
  function HPieceCommitments(count: nat): (r: seq<Commitment>)
    ensures |r| == count
    ensures forall i :: 0 <= i < count ==> r[i] == HPieceCommitment(i)
  {
    seq(count, (i: nat) => HPieceCommitment(i))
  }

  /** The steps of the vanishing argument, in the only order the prover runs them. */
  datatype Phase =
    | Initial
    | RandomPolyCreated
    | RandomPolyCommitted
    | HEvalsCreated
    | FinalHPolyCreated
    | HCommitted
    | Evaluated

  datatype Option<T> = None | Some(value: T)

  /** A polynomial with the blinding value it is committed with. */
  datatype BlindedPoly = BlindedPoly(poly: Poly, blind: Field)

  class VanishingProver {
    /** Which step ran last; the members are set one step at a time. */
    ghost var phase: Phase
    var randomPoly: Option<BlindedPoly>
    var hEvals: Option<ExtendedEvals>
    var hPoly: Option<ExtendedPoly>
    var combinedHPoly: Option<Poly>
    var hBlinds: seq<Field>

    constructor ()
      ensures phase == Initial
      ensures randomPoly == None && hEvals == None && hPoly == None && combinedHPoly == None && hBlinds == []
    {
      phase := Initial;
      randomPoly := None;
      hEvals := None;
      hPoly := None;
      combinedHPoly := None;
      hBlinds := [];
    }

    /** CreateRandomPoly: `sampled` is the blinded random polynomial drawn from the prover's generator. */
    method CreateRandomPoly(sampled: BlindedPoly)
      requires phase == Initial
      modifies this
      ensures phase == RandomPolyCreated && randomPoly == Some(sampled)
      ensures hEvals == old(hEvals) && hPoly == old(hPoly)
      ensures combinedHPoly == old(combinedHPoly) && hBlinds == old(hBlinds)
    {
      randomPoly := Some(sampled);
      phase := RandomPolyCreated;
    }

    /** CommitRandomPoly: commits the random polynomial at slot commitIdx. */
    method CommitRandomPoly(prover: ProverBase, commitIdx: nat) returns (next: nat)
      requires phase == RandomPolyCreated
      requires prover.Valid() && prover.inBatchMode == prover.pcs.supportsBatchMode
      requires prover.inBatchMode ==>
                 commitIdx == |prover.pending| && commitIdx + GetNumRandomPolyCommitment() <= prover.declared
      modifies this`phase, prover
      ensures phase == RandomPolyCommitted
      ensures next == commitIdx + GetNumRandomPolyCommitment()
      ensures prover.Valid() && prover.inBatchMode == old(prover.inBatchMode)
      ensures prover.declared == old(prover.declared) && prover.blinder == old(prover.blinder)
      ensures prover.Log() == old(prover.Log()) + [CommitmentWritten(RandomPolyCommitment)]
      ensures prover.inBatchMode ==> |prover.pending| == next
    {
      next := prover.CommitAt(RandomPolyCommitment, commitIdx);
      phase := RandomPolyCommitted;
    }

    /** CreateHEvals: `evals` is the combined constraint evaluation over the extended domain. */
    method CreateHEvals(evals: ExtendedEvals)
      requires phase == RandomPolyCommitted
      modifies this
      ensures phase == HEvalsCreated && hEvals == Some(evals)
      ensures randomPoly == old(randomPoly) && hPoly == old(hPoly)
      ensures combinedHPoly == old(combinedHPoly) && hBlinds == old(hBlinds)
    {
      hEvals := Some(evals);
      phase := HEvalsCreated;
    }

    /**
     * CreateFinalHPoly: `quotient` is the quotient after division by the
     * vanishing polynomial; one blind is drawn for each piece it is split into.
     */
    method CreateFinalHPoly(cs: ConstraintSystem, quotient: ExtendedPoly)
      requires phase == HEvalsCreated && cs.degree >= 1
      modifies this
      ensures phase == FinalHPolyCreated && hPoly == Some(quotient)
      ensures |hBlinds| == GetNumFinalHPolyCommitment(cs)
      ensures randomPoly == old(randomPoly) && hEvals == old(hEvals) && combinedHPoly == old(combinedHPoly)
    {
      hPoly := Some(quotient);
      var blinds: seq<Field> := [];
      while |blinds| < GetNumFinalHPolyCommitment(cs)
        invariant |blinds| <= GetNumFinalHPolyCommitment(cs)
      {
        var blind: Field := *;
        blinds := blinds + [blind];
      }
      hBlinds := blinds;
      phase := FinalHPolyCreated;
    }

    /** CommitFinalHPoly: commits every piece, in order, from slot commitIdx on. */
    method CommitFinalHPoly(prover: ProverBase, cs: ConstraintSystem, commitIdx: nat) returns (next: nat)
      requires phase == FinalHPolyCreated && cs.degree >= 1
      requires |hBlinds| == GetNumFinalHPolyCommitment(cs)
      requires prover.Valid() && prover.inBatchMode == prover.pcs.supportsBatchMode
      requires prover.inBatchMode ==>
                 commitIdx == |prover.pending| && commitIdx + GetNumFinalHPolyCommitment(cs) <= prover.declared
      modifies this`phase, prover
      ensures phase == HCommitted
      ensures next == commitIdx + GetNumFinalHPolyCommitment(cs)
      ensures prover.Valid() && prover.inBatchMode == old(prover.inBatchMode)
      ensures prover.declared == old(prover.declared) && prover.blinder == old(prover.blinder)
      ensures prover.Log() == old(prover.Log()) + CommitmentEvents(HPieceCommitments(GetNumFinalHPolyCommitment(cs)))
      ensures prover.inBatchMode ==> |prover.pending| == next
    {
      var count := |hBlinds|;
      next := commitIdx;
      for i := 0 to count
        invariant next == commitIdx + i
        invariant prover.Valid() && prover.inBatchMode == old(prover.inBatchMode)
        invariant prover.declared == old(prover.declared) && prover.blinder == old(prover.blinder)
        invariant prover.inBatchMode ==> |prover.pending| == next
        invariant prover.Log() == old(prover.Log()) + CommitmentEvents(HPieceCommitments(i))
      {
        next := prover.CommitAt(HPieceCommitment(i), next);
        assert HPieceCommitments(i + 1) == HPieceCommitments(i) + [HPieceCommitment(i)];
        CommitmentEventsAppend(HPieceCommitments(i), [HPieceCommitment(i)]);
      }
      phase := HCommitted;
    }

    /**
     * BatchEvaluate: `combined` is the quotient recombined from its pieces
     * with powers of x_n = x^xnExponent; the evaluations are written out.
     */
    method BatchEvaluate(prover: ProverBase, xnExponent: nat, combined: Poly)
      requires phase == HCommitted
      requires prover.Valid() && !prover.inBatchMode
      modifies this, prover
      ensures phase == Evaluated && combinedHPoly == Some(combined)
      ensures randomPoly == old(randomPoly) && hEvals == old(hEvals)
      ensures hPoly == old(hPoly) && hBlinds == old(hBlinds)
      ensures prover.Valid() && !prover.inBatchMode && prover.blinder == old(prover.blinder)
      ensures prover.transcript == old(prover.transcript) + [EvaluationsWritten(VanishingEvals(xnExponent))]
    {
      combinedHPoly := Some(combined);
      prover.WriteToTranscript(EvaluationsWritten(VanishingEvals(xnExponent)));
      phase := Evaluated;
    }

    /** Open: appends the two openings the count's constant term stands for. */
    method Open(openings: seq<Opening>) returns (result: seq<Opening>)
      requires phase == Evaluated
      ensures result == openings + OwnOpenings()
      ensures |result| == |openings| + 2
    {
      result := openings + [HPolyOpening, RandomPolyOpening];
    }
  }
}
