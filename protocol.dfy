/**
 * The vocabulary shared by the Halo2 prover and its vanishing argument:
 * opaque field elements and polynomials, symbolic commitments, the events a
 * transcript records and the openings handed to the commitment scheme.
 */
module Protocol {

  /** Field elements, polynomials and extended-domain values are opaque here. */
  type Field(==, 0)
  type Poly(==, 0)
  type ExtendedEvals(==, 0)
  type ExtendedPoly(==, 0)

  /**
   * The Fiat-Shamir challenges: the five named ones of the protocol, and the
   * auxiliary ones the argument data squeezes for custom gates.
   */
  datatype Challenge = Theta | Beta | Gamma | Y | X | Auxiliary(index: nat)

  /** A commitment, identified by the polynomial it binds. */
  datatype Commitment =
    | AdviceCommitment(circuit: nat, column: nat)
    | InstanceCommitment(circuit: nat, column: nat)
    | PermutedPairCommitment(circuit: nat, index: nat)
    | PermutationProductCommitment(circuit: nat, index: nat)
    | LookupProductCommitment(circuit: nat, index: nat)
    | RandomPolyCommitment
    | HPieceCommitment(index: nat)

  /**
   * What an evaluation step writes. The rotations list the points (as row
   * offsets from x) a sub-prover evaluates at; xnExponent is the N of x_n = x^N.
   */
  datatype EvalPart =
    | VanishingEvals(xnExponent: nat)
    | PermutationKeyEvals(rotations: seq<int>)
    | PermutationEvals(rotations: seq<int>)
    | LookupEvals(rotations: seq<int>)

  /** One entry of the append-only transcript. */
  datatype Event =
    | VkReprWritten
    | CommitmentWritten(commitment: Commitment)
    | ChallengeSqueezed(challenge: Challenge)
    | EvaluationsWritten(part: EvalPart)
    | OpeningProofWritten

  datatype ColumnKind = AdviceColumn | InstanceColumn | FixedColumn

  /** A polynomial opening, identified by the polynomial it opens and where. */
  datatype Opening =
    | ColumnOpening(kind: ColumnKind, circuit: nat, column: nat, rotation: int)
    | PermutationOpening(circuit: nat, index: nat)
    | LookupOpening(circuit: nat, index: nat)
    | PermutationKeyOpening(index: nat)
    | HPolyOpening
    | RandomPolyOpening

  /** The transcript events that write the given commitments, in order. */
  function CommitmentEvents(cs: seq<Commitment>): (r: seq<Event>)
    ensures |r| == |cs|
    ensures forall i :: 0 <= i < |cs| ==> r[i] == CommitmentWritten(cs[i])
  {
    seq(|cs|, i requires 0 <= i < |cs| => CommitmentWritten(cs[i]))
  }

  lemma CommitmentEventsAppend(a: seq<Commitment>, b: seq<Commitment>)
    ensures CommitmentEvents(a + b) == CommitmentEvents(a) + CommitmentEvents(b)
  {
  }
}
