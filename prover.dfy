/**
 * The Halo2 proof orchestrator: the order of transcript writes and challenge
 * squeezes, the batch-mode bookkeeping, the evaluation points and the
 * assembly of the opening list. The lookup and permutation sub-provers are
 * described only by their commitment and opening counts.
 */
module Halo2 {
  import opened Protocol
  import opened ProverBase
  import opened Vanishing

  /** A lookup sub-prover of one circuit, by its counts. */
  datatype LookupProver = LookupProver(
    permutedPairs: nat,       // commitments made by BatchCommitPermutedPairs
    grandProducts: nat,       // commitments made by BatchCommitGrandProductPolys
    predictedOpenings: nat,   // its share of GetNumOpenings
    emittedOpenings: nat)     // what its Open appends

  /** A permutation sub-prover of one circuit, by its counts. */
  datatype PermutationProver = PermutationProver(grandProducts: nat, predictedOpenings: nat, emittedOpenings: nat)

  /** The permutation argument's proving key, by its opening counts. */
  datatype PermutationProvingKey = PermutationProvingKey(predictedOpenings: nat, emittedOpenings: nat)

  datatype ProvingKey = ProvingKey(cs: ConstraintSystem, permutationKey: PermutationProvingKey)

  /** One circuit of the batch, by the sub-provers its arguments produce. */
  datatype Circuit = Circuit(lookup: LookupProver, permutation: PermutationProver)

  datatype AbortReason = InstanceCountMismatch | OpeningCountMismatch | OpeningProofFailed

  /** A completed proof (its openings and evaluation points), or a fatal CHECK failure. */
  datatype ProofResult = Proved(openings: seq<Opening>, points: seq<int>) | Aborted(reason: AbortReason)

  // ---------------------------------------------------------------------------
  // Counting

  function Sum(s: seq<nat>): nat {
    if s == [] then 0 else Sum(s[..|s| - 1]) + s[|s| - 1]
  }

  function PermutedPairCounts(circuits: seq<Circuit>): (r: seq<nat>)
    ensures |r| == |circuits|
  {
    seq(|circuits|, i requires 0 <= i < |circuits| => circuits[i].lookup.permutedPairs)
  }

  function PermutationProductCounts(circuits: seq<Circuit>): (r: seq<nat>)
    ensures |r| == |circuits|
  {
    seq(|circuits|, i requires 0 <= i < |circuits| => circuits[i].permutation.grandProducts)
  }

  function LookupProductCounts(circuits: seq<Circuit>): (r: seq<nat>)
    ensures |r| == |circuits|
  {
    seq(|circuits|, i requires 0 <= i < |circuits| => circuits[i].lookup.grandProducts)
  }

  /** The size declared for the second batch: grand products of both arguments and the random poly. */
  function GrandProductBatchSize(circuits: seq<Circuit>): nat {
    Sum(PermutationProductCounts(circuits)) + Sum(LookupProductCounts(circuits)) + GetNumRandomPolyCommitment()
  }

  /** For each circuit in turn, its `counts[i]` commitments made by mk(i, _). */
  function CircuitMajor(counts: seq<nat>, mk: (nat, nat) -> Commitment): seq<Commitment> {
    if counts == [] then []
    else
      var i := |counts| - 1;
      CircuitMajor(counts[..i], mk) + seq(counts[i], (k: nat) => mk(i, k))
  }

  lemma {:induction false} CircuitMajorLength(counts: seq<nat>, mk: (nat, nat) -> Commitment)
    ensures |CircuitMajor(counts, mk)| == Sum(counts)
  {
    if counts != [] {
      CircuitMajorLength(counts[..|counts| - 1], mk);
    }
  }

  function PermutedPairOf(i: nat, k: nat): Commitment {
    PermutedPairCommitment(i, k)
  }

  function PermutationProductOf(i: nat, k: nat): Commitment {
    PermutationProductCommitment(i, k)
  }

  function LookupProductOf(i: nat, k: nat): Commitment {
    LookupProductCommitment(i, k)
  }

  function PermutedPairCommitments(circuits: seq<Circuit>): seq<Commitment> {
    CircuitMajor(PermutedPairCounts(circuits), PermutedPairOf)
  }

  /** The second batch: permutation products, then lookup products, then the random poly. */
  function GrandProductCommitments(circuits: seq<Circuit>): seq<Commitment> {
    CircuitMajor(PermutationProductCounts(circuits), PermutationProductOf)
      + CircuitMajor(LookupProductCounts(circuits), LookupProductOf)
      + [RandomPolyCommitment]
  }

  /** Each batch's declared size is the number of commitments it receives. */
  lemma BatchSizesMatch(circuits: seq<Circuit>)
    ensures |PermutedPairCommitments(circuits)| == Sum(PermutedPairCounts(circuits))
    ensures |GrandProductCommitments(circuits)| == GrandProductBatchSize(circuits)
  {
    CircuitMajorLength(PermutedPairCounts(circuits), PermutedPairOf);
    CircuitMajorLength(PermutationProductCounts(circuits), PermutationProductOf);
    CircuitMajorLength(LookupProductCounts(circuits), LookupProductOf);
  }

  // ---------------------------------------------------------------------------
  // Evaluation points

  /** Row offset of the last usable row: -(blinding_factors + 1). */
  function LastRotation(blindingFactors: nat): (r: int)
    ensures r < 0 && r + blindingFactors + 1 == 0
  {
    -(blindingFactors + 1)
  }

  /** The permutation argument's points x, x_next, x_last as rotations. */
  function PermutationRotations(blindingFactors: nat): seq<int> {
    [0, 1, LastRotation(blindingFactors)]
  }

  /** The lookup argument's points x, x_prev, x_next as rotations. */
  function LookupRotations(): seq<int> {
    [0, -1, 1]
  }

  /**
   * The point x * w^rotation, for a nonzero x and a generator w of order n,
   * is identified by rotation mod n: two points are equal iff these are.
   */
  function PointOf(rotation: int, n: nat): int
    requires n >= 1
  {
    rotation % n
  }

  predicate Distinct(s: seq<int>) {
    forall i, j :: 0 <= i < j < |s| ==> s[i] != s[j]
  }

  /**
   * PointSet::Insert: the set gains the point and nothing else, the points
   * already there keep their order, and a set stays free of duplicates.
   */
  function Insert(points: seq<int>, p: int): (r: seq<int>)
    ensures forall q :: q in r <==> q in points || q == p
    ensures |r| >= |points| && r[..|points|] == points
    ensures Distinct(points) ==> Distinct(r)
  {
    if p in points then points else points + [p]
  }

  /** A new point lengthens the set by one; a present point leaves it as it was. */
  lemma InsertKeepsSet(points: seq<int>, p: int)
    requires Distinct(points)
    ensures |Insert(points, p)| == if p in points then |points| else |points| + 1
    ensures p in points <==> Insert(points, p) == points
  {
  }

  /**
   * The point set built from x, x_prev, x_next and x_last: x first, no
   * duplicates, and exactly those four points.
   */
  function EvaluationPoints(blindingFactors: nat, n: nat): (r: seq<int>)
    requires n >= 1
    ensures 1 <= |r| <= 4 && r[0] == PointOf(0, n) && Distinct(r)
    ensures forall q :: q in r <==> (q == PointOf(0, n) || q == PointOf(-1, n) || q == PointOf(1, n)
                                     || q == PointOf(LastRotation(blindingFactors), n))
  {
    var ps := Insert([], PointOf(0, n));
    var ps := Insert(ps, PointOf(-1, n));
    var ps := Insert(ps, PointOf(1, n));
    Insert(ps, PointOf(LastRotation(blindingFactors), n))
  }

  /** With a blinding row and a large enough domain, the four points are distinct. */
  lemma FourDistinctPoints(blindingFactors: nat, n: nat)
    requires 1 <= blindingFactors && blindingFactors + 2 < n
    ensures EvaluationPoints(blindingFactors, n) == [0, n - 1, 1, n - blindingFactors - 1]
    ensures Distinct(EvaluationPoints(blindingFactors, n))
  {
    var last := n - blindingFactors - 1;
    assert PointOf(0, n) == 0;
    assert PointOf(-1, n) == n - 1;
    assert PointOf(1, n) == 1;
    assert PointOf(LastRotation(blindingFactors), n) == last by {
      assert LastRotation(blindingFactors) == last - n;
    }
    assert Insert([], 0) == [0];
    assert Insert([0], n - 1) == [0, n - 1];
    assert Insert([0, n - 1], 1) == [0, n - 1, 1];
    assert last !in [0, n - 1, 1];
  }

  /** Without blinding rows x_last is x_prev, so the set holds only three points. */
  lemma NoBlindingGivesThreePoints(n: nat)
    requires n >= 3
    ensures EvaluationPoints(0, n) == [0, n - 1, 1]
  {
    assert PointOf(0, n) == 0;
    assert PointOf(-1, n) == n - 1;
    assert PointOf(1, n) == 1;
    assert PointOf(LastRotation(0), n) == n - 1;
    assert n - 1 !in [0];
    assert Insert([0], n - 1) == [0, n - 1];
    assert 1 !in [0, n - 1];
    assert Insert([0, n - 1], 1) == [0, n - 1, 1];
    assert n - 1 in [0, n - 1, 1];
  }

  // ---------------------------------------------------------------------------
  // The transcript

  function EvaluationEvents(n: nat, blindingFactors: nat): seq<Event> {
    [ EvaluationsWritten(VanishingEvals(n)),
      EvaluationsWritten(PermutationKeyEvals(PermutationRotations(blindingFactors))),
      EvaluationsWritten(PermutationEvals(PermutationRotations(blindingFactors))),
      EvaluationsWritten(LookupEvals(LookupRotations())) ]
  }

  /**
   * What ArgumentData::Create may write: the commitments to the advice and
   * instance columns, and the auxiliary challenges squeezed for custom gates.
   */
  predicate ArgumentDataEvent(e: Event) {
    match e
    case CommitmentWritten(c) => c.AdviceCommitment? || c.InstanceCommitment?
    case ChallengeSqueezed(c) => c.Auxiliary?
    case _ => false
  }

  predicate ArgumentDataWrites(events: seq<Event>) {
    forall i :: 0 <= i < |events| ==> ArgumentDataEvent(events[i])
  }

  /** The verifying key's representation, then what ArgumentData::Create writes. */
  function HeaderEvents(argumentData: seq<Event>): seq<Event> {
    [VkReprWritten] + argumentData
  }

  function PermutedPairsRoundEvents(circuits: seq<Circuit>): seq<Event> {
    [ChallengeSqueezed(Theta)] + CommitmentEvents(PermutedPairCommitments(circuits))
  }

  function GrandProductRoundEvents(circuits: seq<Circuit>): seq<Event> {
    [ChallengeSqueezed(Beta)] + ([ChallengeSqueezed(Gamma)] + CommitmentEvents(GrandProductCommitments(circuits)))
  }

  function QuotientRoundEvents(cs: ConstraintSystem): seq<Event>
    requires cs.degree >= 1
  {
    [ChallengeSqueezed(Y)] + CommitmentEvents(HPieceCommitments(GetNumFinalHPolyCommitment(cs)))
  }

  function OpeningRoundEvents(n: nat, blindingFactors: nat): seq<Event> {
    [ChallengeSqueezed(X)] + (EvaluationEvents(n, blindingFactors) + [OpeningProofWritten])
  }

  /** What the protocol writes once the argument data exists. */
  function ProtocolEvents(pcs: Pcs, blindingFactors: nat, cs: ConstraintSystem, circuits: seq<Circuit>): seq<Event>
    requires cs.degree >= 1
  {
    PermutedPairsRoundEvents(circuits)
      + (GrandProductRoundEvents(circuits)
      + (QuotientRoundEvents(cs)
      + OpeningRoundEvents(pcs.n, blindingFactors)))
  }

  /** Everything a successful proof writes, from the verifying key to the opening proof. */
  function ProofTranscript(pcs: Pcs, blindingFactors: nat, cs: ConstraintSystem, circuits: seq<Circuit>,
                           argumentData: seq<Event>): (r: seq<Event>)
    requires cs.degree >= 1
    ensures |r| > |argumentData| + 1 && r[0] == VkReprWritten && r[1..|argumentData| + 1] == argumentData
    ensures r[|argumentData| + 1] == ChallengeSqueezed(Theta)
    ensures r[|r| - 1] == OpeningProofWritten
  {
    var protocol := ProtocolEvents(pcs, blindingFactors, cs, circuits);
    assert protocol[0] == ChallengeSqueezed(Theta);
    assert protocol[|protocol| - 1] == OpeningProofWritten;
    HeaderEvents(argumentData) + protocol
  }

  lemma AppendAssoc<T>(a: seq<T>, b: seq<T>, c: seq<T>)
    ensures (a + b) + c == a + (b + c)
  {
  }

  lemma HeaderThenProtocol(t: seq<Event>, argumentData: seq<Event>, protocol: seq<Event>)
    ensures t + [VkReprWritten] + argumentData + protocol == t + (HeaderEvents(argumentData) + protocol)
  {
  }

  /** The second batch's events, written in three parts. */
  lemma GrandProductEventsSplit(permutationBatch: seq<Commitment>, lookupBatch: seq<Commitment>)
    ensures CommitmentEvents(permutationBatch + lookupBatch + [RandomPolyCommitment])
         == CommitmentEvents(permutationBatch) + CommitmentEvents(lookupBatch) + [CommitmentWritten(RandomPolyCommitment)]
  {
  }

  /** The challenges squeezed in a transcript, in order. */
  function Challenges(events: seq<Event>): seq<Challenge> {
    if events == [] then []
    else (if events[0].ChallengeSqueezed? then [events[0].challenge] else []) + Challenges(events[1..])
  }

  /** All commitments written in a transcript, in order. */
  function Commitments(events: seq<Event>): seq<Commitment> {
    if events == [] then []
    else (if events[0].CommitmentWritten? then [events[0].commitment] else []) + Commitments(events[1..])
  }

  /** The commitments written before challenge c is first squeezed: those c binds. */
  function CommitmentsBefore(events: seq<Event>, c: Challenge): seq<Commitment> {
    if events == [] || events[0] == ChallengeSqueezed(c) then []
    else (if events[0].CommitmentWritten? then [events[0].commitment] else []) + CommitmentsBefore(events[1..], c)
  }

  lemma {:induction false} ChallengesAppend(a: seq<Event>, b: seq<Event>)
    ensures Challenges(a + b) == Challenges(a) + Challenges(b)
  {
    if a == [] {
      assert a + b == b;
    } else {
      assert (a + b)[0] == a[0];
      assert (a + b)[1..] == a[1..] + b;
      ChallengesAppend(a[1..], b);
    }
  }

  lemma {:induction false} CommitmentsAppend(a: seq<Event>, b: seq<Event>)
    ensures Commitments(a + b) == Commitments(a) + Commitments(b)
  {
    if a == [] {
      assert a + b == b;
    } else {
      assert (a + b)[0] == a[0];
      assert (a + b)[1..] == a[1..] + b;
      CommitmentsAppend(a[1..], b);
    }
  }

  lemma {:induction false} CommitmentsBeforeAppend(a: seq<Event>, b: seq<Event>, c: Challenge)
    requires c !in Challenges(a)
    ensures CommitmentsBefore(a + b, c) == Commitments(a) + CommitmentsBefore(b, c)
  {
    if a == [] {
      assert a + b == b;
    } else {
      var e, rest := a[0], a[1..];
      assert a == [e] + rest;
      ConsContents(e, rest);
      AppendAssoc([e], rest, b);
      BeforeCons(e, rest + b, c);
      CommitmentsBeforeAppend(rest, b, c);
      var head := if e.CommitmentWritten? then [e.commitment] else [];
      AppendAssoc(head, Commitments(rest), CommitmentsBefore(b, c));
    }
  }

  /** Before challenge c is squeezed, each event adds its own commitment, if any. */
  lemma BeforeCons(e: Event, rest: seq<Event>, c: Challenge)
    requires e != ChallengeSqueezed(c)
    ensures CommitmentsBefore([e] + rest, c) == (if e.CommitmentWritten? then [e.commitment] else []) + CommitmentsBefore(rest, c)
  {
  }

  lemma {:induction false} CommitmentEventsContents(cs: seq<Commitment>)
    ensures Challenges(CommitmentEvents(cs)) == []
    ensures Commitments(CommitmentEvents(cs)) == cs
  {
    if cs != [] {
      assert CommitmentEvents(cs)[1..] == CommitmentEvents(cs[1..]);
      CommitmentEventsContents(cs[1..]);
    }
  }

  /** Prepending one event adds at most that event's challenge or commitment. */
  lemma ConsContents(e: Event, rest: seq<Event>)
    ensures Challenges([e] + rest) == (if e.ChallengeSqueezed? then [e.challenge] else []) + Challenges(rest)
    ensures Commitments([e] + rest) == (if e.CommitmentWritten? then [e.commitment] else []) + Commitments(rest)
  {
  }

  /** The argument data squeezes auxiliary challenges only. */
  lemma {:induction false} AuxiliaryChallengesOnly(events: seq<Event>)
    requires ArgumentDataWrites(events)
    ensures forall c :: c in Challenges(events) ==> c.Auxiliary?
  {
    if events != [] {
      AuxiliaryChallengesOnly(events[1..]);
    }
  }

  /** The header binds what the argument data wrote, and squeezes no named challenge. */
  lemma HeaderContents(argumentData: seq<Event>)
    requires ArgumentDataWrites(argumentData)
    ensures Challenges(HeaderEvents(argumentData)) == Challenges(argumentData)
    ensures Commitments(HeaderEvents(argumentData)) == Commitments(argumentData)
    ensures forall c :: c in Challenges(HeaderEvents(argumentData)) ==> c.Auxiliary?
  {
    ConsContents(VkReprWritten, argumentData);
    AuxiliaryChallengesOnly(argumentData);
  }

  /** The first round squeezes theta, then writes the permuted pairs. */
  lemma PermutedPairsRoundContents(circuits: seq<Circuit>)
    ensures Challenges(PermutedPairsRoundEvents(circuits)) == [Theta]
    ensures Commitments(PermutedPairsRoundEvents(circuits)) == PermutedPairCommitments(circuits)
  {
    var e1 := CommitmentEvents(PermutedPairCommitments(circuits));
    CommitmentEventsContents(PermutedPairCommitments(circuits));
    ConsContents(ChallengeSqueezed(Theta), e1);
  }

  /** The second round squeezes beta and gamma, then writes the grand products. */
  lemma GrandProductRoundContents(circuits: seq<Circuit>)
    ensures Challenges(GrandProductRoundEvents(circuits)) == [Beta, Gamma]
    ensures Commitments(GrandProductRoundEvents(circuits)) == GrandProductCommitments(circuits)
  {
    var e2 := CommitmentEvents(GrandProductCommitments(circuits));
    CommitmentEventsContents(GrandProductCommitments(circuits));
    ConsContents(ChallengeSqueezed(Gamma), e2);
    ConsContents(ChallengeSqueezed(Beta), [ChallengeSqueezed(Gamma)] + e2);
  }

  /** The third round squeezes y, then writes the quotient pieces. */
  lemma QuotientRoundContents(cs: ConstraintSystem)
    requires cs.degree >= 1
    ensures Challenges(QuotientRoundEvents(cs)) == [Y]
    ensures Commitments(QuotientRoundEvents(cs)) == HPieceCommitments(GetNumFinalHPolyCommitment(cs))
  {
    var e3 := CommitmentEvents(HPieceCommitments(GetNumFinalHPolyCommitment(cs)));
    CommitmentEventsContents(HPieceCommitments(GetNumFinalHPolyCommitment(cs)));
    ConsContents(ChallengeSqueezed(Y), e3);
  }

  /** A transcript segment without squeeze events yields no challenges. */
  lemma {:induction false} NoChallenges(events: seq<Event>)
    requires forall i :: 0 <= i < |events| ==> !events[i].ChallengeSqueezed?
    ensures Challenges(events) == []
  {
    if events != [] {
      NoChallenges(events[1..]);
    }
  }

  /** The last round squeezes x and nothing else. */
  lemma OpeningRoundContents(n: nat, blindingFactors: nat)
    ensures Challenges(OpeningRoundEvents(n, blindingFactors)) == [X]
  {
    var tail := EvaluationEvents(n, blindingFactors) + [OpeningProofWritten];
    NoChallenges(tail);
    ConsContents(ChallengeSqueezed(X), tail);
  }

  /**
   * After the auxiliary challenges of the argument data, the five named
   * challenges are squeezed exactly once each, as theta, beta, gamma, y, x.
   */
  lemma TranscriptSqueezesInOrder(pcs: Pcs, blindingFactors: nat, cs: ConstraintSystem, circuits: seq<Circuit>,
                                  argumentData: seq<Event>)
    requires cs.degree >= 1 && ArgumentDataWrites(argumentData)
    ensures Challenges(ProofTranscript(pcs, blindingFactors, cs, circuits, argumentData))
         == Challenges(argumentData) + [Theta, Beta, Gamma, Y, X]
    ensures forall c :: c in Challenges(argumentData) ==> c.Auxiliary?
  {
    HeaderContents(argumentData);
    ProtocolChallenges(pcs, blindingFactors, cs, circuits);
    ChallengesAppend(HeaderEvents(argumentData), ProtocolEvents(pcs, blindingFactors, cs, circuits));
  }

  /** The four rounds squeeze the named challenges, one round after another. */
  lemma ProtocolChallenges(pcs: Pcs, blindingFactors: nat, cs: ConstraintSystem, circuits: seq<Circuit>)
    requires cs.degree >= 1
    ensures Challenges(ProtocolEvents(pcs, blindingFactors, cs, circuits)) == [Theta, Beta, Gamma, Y, X]
  {
    var r1, r2 := PermutedPairsRoundEvents(circuits), GrandProductRoundEvents(circuits);
    var r3, r4 := QuotientRoundEvents(cs), OpeningRoundEvents(pcs.n, blindingFactors);
    PermutedPairsRoundContents(circuits);
    GrandProductRoundContents(circuits);
    QuotientRoundContents(cs);
    OpeningRoundContents(pcs.n, blindingFactors);
    ChallengesAppend(r3, r4);
    ChallengesAppend(r2, r3 + r4);
    ChallengesAppend(r1, r2 + (r3 + r4));
  }

  /** The commitments bound by c, when c is first squeezed right after `a`. */
  lemma {:induction false} BoundBySqueeze(a: seq<Event>, c: Challenge, rest: seq<Event>)
    requires c !in Challenges(a)
    ensures CommitmentsBefore(a + ([ChallengeSqueezed(c)] + rest), c) == Commitments(a)
  {
    CommitmentsBeforeAppend(a, [ChallengeSqueezed(c)] + rest, c);
    assert ([ChallengeSqueezed(c)] + rest)[0] == ChallengeSqueezed(c);
  }

  /** Theta binds the advice and instance commitments the argument data wrote. */
  lemma ThetaBindsArgumentData(pcs: Pcs, blindingFactors: nat, cs: ConstraintSystem, circuits: seq<Circuit>,
                               argumentData: seq<Event>)
    requires cs.degree >= 1 && ArgumentDataWrites(argumentData)
    ensures CommitmentsBefore(ProofTranscript(pcs, blindingFactors, cs, circuits, argumentData), Theta)
         == Commitments(argumentData)
  {
    var rest := CommitmentEvents(PermutedPairCommitments(circuits))
      + (GrandProductRoundEvents(circuits) + (QuotientRoundEvents(cs) + OpeningRoundEvents(pcs.n, blindingFactors)));
    HeaderContents(argumentData);
    assert ProtocolEvents(pcs, blindingFactors, cs, circuits) == [ChallengeSqueezed(Theta)] + rest;
    BoundBySqueeze(HeaderEvents(argumentData), Theta, rest);
  }

  /** Moving the front event of the left operand out of a concatenation. */
  lemma FrontOut(e: Event, a: seq<Event>, b: seq<Event>)
    ensures ([e] + a) + b == [e] + (a + b)
  {
  }

  lemma BetaBindsPermutedPairs(pcs: Pcs, blindingFactors: nat, cs: ConstraintSystem, circuits: seq<Circuit>,
                               argumentData: seq<Event>)
    requires cs.degree >= 1 && ArgumentDataWrites(argumentData)
    ensures CommitmentsBefore(ProofTranscript(pcs, blindingFactors, cs, circuits, argumentData), Beta)
         == Commitments(argumentData) + PermutedPairCommitments(circuits)
  {
    var h, r1 := HeaderEvents(argumentData), PermutedPairsRoundEvents(circuits);
    var later := QuotientRoundEvents(cs) + OpeningRoundEvents(pcs.n, blindingFactors);
    var gamma := [ChallengeSqueezed(Gamma)] + CommitmentEvents(GrandProductCommitments(circuits));
    HeaderContents(argumentData);
    PermutedPairsRoundContents(circuits);
    CommitmentsBeforeAppend(h, r1 + (GrandProductRoundEvents(circuits) + later), Beta);
    FrontOut(ChallengeSqueezed(Beta), gamma, later);
    BoundBySqueeze(r1, Beta, gamma + later);
  }

  /** From the first round on, gamma binds the permuted pairs. */
  lemma GammaBindsFirstBatch(circuits: seq<Circuit>, later: seq<Event>)
    ensures CommitmentsBefore(PermutedPairsRoundEvents(circuits) + (GrandProductRoundEvents(circuits) + later), Gamma)
         == PermutedPairCommitments(circuits)
  {
    var r1 := PermutedPairsRoundEvents(circuits);
    var e2 := CommitmentEvents(GrandProductCommitments(circuits));
    var beta := [ChallengeSqueezed(Beta)];
    PermutedPairsRoundContents(circuits);
    FrontOut(ChallengeSqueezed(Beta), [ChallengeSqueezed(Gamma)] + e2, later);
    FrontOut(ChallengeSqueezed(Gamma), e2, later);
    CommitmentsBeforeAppend(r1, beta + ([ChallengeSqueezed(Gamma)] + (e2 + later)), Gamma);
    ConsContents(ChallengeSqueezed(Beta), []);
    assert beta == beta + [];
    BoundBySqueeze(beta, Gamma, e2 + later);
  }

  /** Gamma is squeezed right after beta, so it binds the same commitments. */
  lemma GammaBindsPermutedPairs(pcs: Pcs, blindingFactors: nat, cs: ConstraintSystem, circuits: seq<Circuit>,
                                argumentData: seq<Event>)
    requires cs.degree >= 1 && ArgumentDataWrites(argumentData)
    ensures CommitmentsBefore(ProofTranscript(pcs, blindingFactors, cs, circuits, argumentData), Gamma)
         == Commitments(argumentData) + PermutedPairCommitments(circuits)
  {
    var later := QuotientRoundEvents(cs) + OpeningRoundEvents(pcs.n, blindingFactors);
    var rest := PermutedPairsRoundEvents(circuits) + (GrandProductRoundEvents(circuits) + later);
    GammaBindsFirstBatch(circuits, later);
    HeaderContents(argumentData);
    CommitmentsBeforeAppend(HeaderEvents(argumentData), rest, Gamma);
  }

  lemma YBindsTwoBatches(pcs: Pcs, blindingFactors: nat, cs: ConstraintSystem, circuits: seq<Circuit>,
                         argumentData: seq<Event>)
    requires cs.degree >= 1 && ArgumentDataWrites(argumentData)
    ensures CommitmentsBefore(ProofTranscript(pcs, blindingFactors, cs, circuits, argumentData), Y)
         == Commitments(argumentData) + (PermutedPairCommitments(circuits) + GrandProductCommitments(circuits))
  {
    var h, r1, r2 := HeaderEvents(argumentData), PermutedPairsRoundEvents(circuits), GrandProductRoundEvents(circuits);
    var r3, r4 := QuotientRoundEvents(cs), OpeningRoundEvents(pcs.n, blindingFactors);
    var c1, c2 := PermutedPairCommitments(circuits), GrandProductCommitments(circuits);
    assert CommitmentsBefore(r2 + (r3 + r4), Y) == c2 by {
      var e3 := CommitmentEvents(HPieceCommitments(GetNumFinalHPolyCommitment(cs)));
      GrandProductRoundContents(circuits);
      FrontOut(ChallengeSqueezed(Y), e3, r4);
      BoundBySqueeze(r2, Y, e3 + r4);
    }
    assert CommitmentsBefore(r1 + (r2 + (r3 + r4)), Y) == c1 + c2 by {
      PermutedPairsRoundContents(circuits);
      CommitmentsBeforeAppend(r1, r2 + (r3 + r4), Y);
    }
    HeaderContents(argumentData);
    CommitmentsBeforeAppend(h, r1 + (r2 + (r3 + r4)), Y);
  }

  /** From the third round on, x binds the quotient pieces. */
  lemma XBindsQuotientPieces(n: nat, blindingFactors: nat, cs: ConstraintSystem)
    requires cs.degree >= 1
    ensures CommitmentsBefore(QuotientRoundEvents(cs) + OpeningRoundEvents(n, blindingFactors), X)
         == HPieceCommitments(GetNumFinalHPolyCommitment(cs))
  {
    QuotientRoundContents(cs);
    BoundBySqueeze(QuotientRoundEvents(cs), X, EvaluationEvents(n, blindingFactors) + [OpeningProofWritten]);
  }

  /** From the second round on, x binds the grand products and the quotient pieces. */
  lemma XBindsLastTwoBatches(n: nat, blindingFactors: nat, cs: ConstraintSystem, circuits: seq<Circuit>)
    requires cs.degree >= 1
    ensures CommitmentsBefore(GrandProductRoundEvents(circuits) + (QuotientRoundEvents(cs) + OpeningRoundEvents(n, blindingFactors)), X)
         == GrandProductCommitments(circuits) + HPieceCommitments(GetNumFinalHPolyCommitment(cs))
  {
    XBindsQuotientPieces(n, blindingFactors, cs);
    GrandProductRoundContents(circuits);
    CommitmentsBeforeAppend(GrandProductRoundEvents(circuits), QuotientRoundEvents(cs) + OpeningRoundEvents(n, blindingFactors), X);
  }

  lemma XBindsThreeBatches(pcs: Pcs, blindingFactors: nat, cs: ConstraintSystem, circuits: seq<Circuit>,
                           argumentData: seq<Event>)
    requires cs.degree >= 1 && ArgumentDataWrites(argumentData)
    ensures CommitmentsBefore(ProofTranscript(pcs, blindingFactors, cs, circuits, argumentData), X)
         == Commitments(argumentData) + (PermutedPairCommitments(circuits) + (GrandProductCommitments(circuits)
            + HPieceCommitments(GetNumFinalHPolyCommitment(cs))))
  {
    var h, r1, r2 := HeaderEvents(argumentData), PermutedPairsRoundEvents(circuits), GrandProductRoundEvents(circuits);
    var r3, r4 := QuotientRoundEvents(cs), OpeningRoundEvents(pcs.n, blindingFactors);
    XBindsLastTwoBatches(pcs.n, blindingFactors, cs, circuits);
    PermutedPairsRoundContents(circuits);
    CommitmentsBeforeAppend(r1, r2 + (r3 + r4), X);
    HeaderContents(argumentData);
    CommitmentsBeforeAppend(h, r1 + (r2 + (r3 + r4)), X);
  }

  /**
   * Each named challenge binds exactly the commitments written before it:
   * theta the advice and instance commitments of the argument data, beta and
   * gamma also the permuted pairs, y also the grand products and the random
   * poly, x also the quotient pieces.
   */
  lemma TranscriptBindsCommitments(pcs: Pcs, blindingFactors: nat, cs: ConstraintSystem, circuits: seq<Circuit>,
                                   argumentData: seq<Event>)
    requires cs.degree >= 1 && ArgumentDataWrites(argumentData)
    ensures var t, a := ProofTranscript(pcs, blindingFactors, cs, circuits, argumentData), Commitments(argumentData);
      && CommitmentsBefore(t, Theta) == a
      && CommitmentsBefore(t, Beta) == a + PermutedPairCommitments(circuits)
      && CommitmentsBefore(t, Gamma) == a + PermutedPairCommitments(circuits)
      && CommitmentsBefore(t, Y) == a + (PermutedPairCommitments(circuits) + GrandProductCommitments(circuits))
      && CommitmentsBefore(t, X) == a + (PermutedPairCommitments(circuits) + (GrandProductCommitments(circuits)
                                    + HPieceCommitments(GetNumFinalHPolyCommitment(cs))))
    ensures forall c :: c in Commitments(argumentData) ==> c.AdviceCommitment? || c.InstanceCommitment?
  {
    ThetaBindsArgumentData(pcs, blindingFactors, cs, circuits, argumentData);
    BetaBindsPermutedPairs(pcs, blindingFactors, cs, circuits, argumentData);
    GammaBindsPermutedPairs(pcs, blindingFactors, cs, circuits, argumentData);
    YBindsTwoBatches(pcs, blindingFactors, cs, circuits, argumentData);
    XBindsThreeBatches(pcs, blindingFactors, cs, circuits, argumentData);
    ArgumentDataCommitments(argumentData);
  }

  /** The argument data commits advice and instance columns only. */
  lemma {:induction false} ArgumentDataCommitments(events: seq<Event>)
    requires ArgumentDataWrites(events)
    ensures forall c :: c in Commitments(events) ==> c.AdviceCommitment? || c.InstanceCommitment?
  {
    if events != [] {
      ArgumentDataCommitments(events[1..]);
    }
  }

  // ---------------------------------------------------------------------------
  // The opening list

  function PermutationOpenings(circuit: nat, count: nat): (r: seq<Opening>)
    ensures |r| == count
    ensures forall k :: 0 <= k < count ==> r[k] == PermutationOpening(circuit, k)
  {
    seq(count, (k: nat) => PermutationOpening(circuit, k))
  }

  function LookupOpenings(circuit: nat, count: nat): (r: seq<Opening>)
    ensures |r| == count
    ensures forall k :: 0 <= k < count ==> r[k] == LookupOpening(circuit, k)
  {
    seq(count, (k: nat) => LookupOpening(circuit, k))
  }

  function PermutationKeyOpenings(count: nat): (r: seq<Opening>)
    ensures |r| == count
    ensures forall k :: 0 <= k < count ==> r[k] == PermutationKeyOpening(k)
  {
    seq(count, (k: nat) => PermutationKeyOpening(k))
  }

  /** One circuit's openings: its columns, then its permutation, then its lookups. */
  function OneCircuitOpenings(queryInstance: bool, cs: ConstraintSystem, i: nat, c: Circuit): seq<Opening> {
    AdviceInstanceOpenings(queryInstance, cs, i)
      + PermutationOpenings(i, c.permutation.emittedOpenings)
      + LookupOpenings(i, c.lookup.emittedOpenings)
  }

  /**
   * An opening that belongs to one of the first numCircuits circuits: an
   * advice or (when queried) instance column, a permutation or a lookup.
   */
  predicate PerCircuitOpening(o: Opening, queryInstance: bool, numCircuits: nat) {
    match o
    case ColumnOpening(kind, circuit, _, _) =>
      kind != FixedColumn && (kind == InstanceColumn ==> queryInstance) && circuit < numCircuits
    case PermutationOpening(circuit, _) => circuit < numCircuits
    case LookupOpening(circuit, _) => circuit < numCircuits
    case _ => false
  }

  /** The per-circuit openings, circuit by circuit in ascending order. */
  function CircuitOpenings(queryInstance: bool, cs: ConstraintSystem, circuits: seq<Circuit>): (r: seq<Opening>)
    ensures forall o :: o in r ==> PerCircuitOpening(o, queryInstance, |circuits|)
  {
    if circuits == [] then []
    else
      var i := |circuits| - 1;
      CircuitOpenings(queryInstance, cs, circuits[..i]) + OneCircuitOpenings(queryInstance, cs, i, circuits[i])
  }

  /**
   * The full opening list in the order Open emits it. The fixed columns are
   * opened once, from the first circuit; instance columns only when the
   * scheme queries them; the vanishing argument's own openings come last.
   */
  function OpeningList(queryInstance: bool, pk: ProvingKey, circuits: seq<Circuit>): (r: seq<Opening>)
    ensures |r| >= 2 && r[|r| - 2..] == OwnOpenings()
    ensures forall o :: o in r && o.ColumnOpening? ==>
              && (o.kind == FixedColumn ==> o.circuit == 0)
              && (o.kind == InstanceColumn ==> queryInstance)
              && (o.kind != FixedColumn ==> o.circuit < |circuits|)
  {
    CircuitOpenings(queryInstance, pk.cs, circuits)
      + FixedOpenings(pk.cs)
      + PermutationKeyOpenings(pk.permutationKey.emittedOpenings)
      + OwnOpenings()
  }

  function PermutationPredicted(circuits: seq<Circuit>): (r: seq<nat>)
    ensures |r| == |circuits|
  {
    seq(|circuits|, i requires 0 <= i < |circuits| => circuits[i].permutation.predictedOpenings)
  }

  function PermutationEmitted(circuits: seq<Circuit>): (r: seq<nat>)
    ensures |r| == |circuits|
  {
    seq(|circuits|, i requires 0 <= i < |circuits| => circuits[i].permutation.emittedOpenings)
  }

  function LookupPredicted(circuits: seq<Circuit>): (r: seq<nat>)
    ensures |r| == |circuits|
  {
    seq(|circuits|, i requires 0 <= i < |circuits| => circuits[i].lookup.predictedOpenings)
  }

  function LookupEmitted(circuits: seq<Circuit>): (r: seq<nat>)
    ensures |r| == |circuits|
  {
    seq(|circuits|, i requires 0 <= i < |circuits| => circuits[i].lookup.emittedOpenings)
  }

  /** The size Open predicts: vanishing + permutation (with its key) + lookup counts. */
  function PredictedOpeningCount(queryInstance: bool, pk: ProvingKey, circuits: seq<Circuit>): nat {
    GetNumOpenings(queryInstance, |circuits|, pk.cs)
      + (Sum(PermutationPredicted(circuits)) + pk.permutationKey.predictedOpenings)
      + Sum(LookupPredicted(circuits))
  }

  /** The sub-provers emit in total what they predict. */
  predicate OpeningCountsAgree(pk: ProvingKey, circuits: seq<Circuit>) {
    Sum(PermutationEmitted(circuits)) + pk.permutationKey.emittedOpenings + Sum(LookupEmitted(circuits))
      == Sum(PermutationPredicted(circuits)) + pk.permutationKey.predictedOpenings + Sum(LookupPredicted(circuits))
  }

  lemma {:induction false} CircuitOpeningsLength(queryInstance: bool, cs: ConstraintSystem, circuits: seq<Circuit>)
    ensures |CircuitOpenings(queryInstance, cs, circuits)|
         == GetNumOpenings(queryInstance, |circuits|, cs) - |cs.fixedQueries| - 2
            + Sum(PermutationEmitted(circuits)) + Sum(LookupEmitted(circuits))
  {
    if circuits != [] {
      var i := |circuits| - 1;
      CircuitOpeningsLength(queryInstance, cs, circuits[..i]);
      GetNumOpeningsPerCircuit(queryInstance, i, cs, i);
      assert PermutationEmitted(circuits[..i]) == PermutationEmitted(circuits)[..i];
      assert LookupEmitted(circuits[..i]) == LookupEmitted(circuits)[..i];
    } else {
      GetNumOpeningsPerCircuit(queryInstance, 0, cs, 0);
    }
  }

  /**
   * The vanishing count's fixed and constant terms are met by the fixed
   * openings and the vanishing argument's own two, so the list has the
   * predicted length exactly when the sub-provers' counts agree.
   */
  lemma OpeningListLength(queryInstance: bool, pk: ProvingKey, circuits: seq<Circuit>)
    ensures |OpeningList(queryInstance, pk, circuits)|
         == GetNumOpenings(queryInstance, |circuits|, pk.cs)
            + Sum(PermutationEmitted(circuits)) + pk.permutationKey.emittedOpenings + Sum(LookupEmitted(circuits))
    ensures |OpeningList(queryInstance, pk, circuits)| == PredictedOpeningCount(queryInstance, pk, circuits)
        <==> OpeningCountsAgree(pk, circuits)
  {
    CircuitOpeningsLength(queryInstance, pk.cs, circuits);
  }

  // ---------------------------------------------------------------------------
  // The prover

  predicate InstancesMatch(cs: ConstraintSystem, instanceColumnsVec: seq<nat>, circuits: seq<Circuit>) {
    && |circuits| == |instanceColumnsVec|
    && forall i :: 0 <= i < |instanceColumnsVec| ==> instanceColumnsVec[i] == cs.numInstanceColumns
  }

  class Prover {
    const base: ProverBase
    var rng: Rng
    var generator: FieldGenerator

    ghost predicate Valid()
      reads this, base
    {
      base.Valid() && !base.inBatchMode && base.pcs.n >= 1
    }

    /** CreateFromRNG: the generator draws from rng, the blinder from the generator. */
    constructor CreateFromRNG(pcs: Pcs, rng: Rng, blindingFactors: nat)
      requires pcs.n >= 1
      ensures Valid() && fresh(base) && base.pcs == pcs && base.transcript == []
      ensures this.rng == rng && generator == FieldGenerator(rng)
      ensures base.blinder == Blinder(generator, blindingFactors)
    {
      this.rng := rng;
      generator := FieldGenerator(rng);
      base := new ProverBase(pcs, Blinder(FieldGenerator(rng), blindingFactors));
    }

    /** CreateFromSeed: the RNG is seeded with the caller's bytes (reproducible proofs). */
    constructor CreateFromSeed(pcs: Pcs, seed: seq<bv8>, blindingFactors: nat)
      requires pcs.n >= 1
      ensures Valid() && fresh(base) && base.pcs == pcs && base.transcript == []
      ensures rng == Rng(seed) && generator == FieldGenerator(rng)
      ensures base.blinder == Blinder(generator, blindingFactors)
    {
      rng := Rng(seed);
      generator := FieldGenerator(Rng(seed));
      base := new ProverBase(pcs, Blinder(FieldGenerator(Rng(seed)), blindingFactors));
    }

    /** CreateFromRandomSeed: `entropy` is the seed the operating system supplies. */
    constructor CreateFromRandomSeed(pcs: Pcs, entropy: seq<bv8>, blindingFactors: nat)
      requires pcs.n >= 1
      ensures Valid() && fresh(base) && base.pcs == pcs && base.transcript == []
      ensures rng == Rng(entropy) && generator == FieldGenerator(rng)
      ensures base.blinder == Blinder(generator, blindingFactors)
    {
      rng := Rng(entropy);
      generator := FieldGenerator(Rng(entropy));
      base := new ProverBase(pcs, Blinder(FieldGenerator(Rng(entropy)), blindingFactors));
    }

    /** SetRng: new RNG, new generator over it, new blinder with the same blinding factors. */
    method SetRng(newRng: Rng)
      requires Valid()
      modifies this, base
      ensures Valid() && rng == newRng && generator == FieldGenerator(newRng)
      ensures base.blinder == Blinder(generator, old(base.blinder.blindingFactors))
      ensures base.transcript == old(base.transcript)
    {
      rng := newRng;
      generator := FieldGenerator(rng);
      base.blinder := Blinder(generator, base.blinder.blindingFactors);
    }

    /** The sub-provers' batch commit loops: commits in the given order from slot commitIdx. */
    method CommitInOrder(commitments: seq<Commitment>, commitIdx: nat) returns (next: nat)
      requires base.Valid() && base.inBatchMode == base.pcs.supportsBatchMode
      requires base.inBatchMode ==> commitIdx == |base.pending| && commitIdx + |commitments| <= base.declared
      modifies base
      ensures next == commitIdx + |commitments|
      ensures base.Valid() && base.inBatchMode == old(base.inBatchMode)
      ensures base.declared == old(base.declared) && base.blinder == old(base.blinder)
      ensures base.inBatchMode ==> |base.pending| == next
      ensures base.Log() == old(base.Log()) + CommitmentEvents(commitments)
    {
      next := commitIdx;
      for i := 0 to |commitments|
        invariant next == commitIdx + i
        invariant base.Valid() && base.inBatchMode == old(base.inBatchMode)
        invariant base.declared == old(base.declared) && base.blinder == old(base.blinder)
        invariant base.inBatchMode ==> |base.pending| == next
        invariant base.Log() == old(base.Log()) + CommitmentEvents(commitments[..i])
      {
        next := base.CommitAt(commitments[i], next);
        assert commitments[..i + 1] == commitments[..i] + [commitments[i]];
        CommitmentEventsAppend(commitments[..i], [commitments[i]]);
      }
      assert commitments[..|commitments|] == commitments;
    }

    /** Squeeze theta, then commit the permuted lookup pairs as the first batch. */
    method PermutedPairsRound(circuits: seq<Circuit>)
      requires Valid()
      modifies base
      ensures Valid() && base.blinder == old(base.blinder)
      ensures base.transcript == old(base.transcript) + PermutedPairsRoundEvents(circuits)
    {
      base.SqueezeChallenge(Theta);
      ghost var log0 := base.Log();
      var batch := PermutedPairCommitments(circuits);
      CircuitMajorLength(PermutedPairCounts(circuits), PermutedPairOf);
      if base.pcs.supportsBatchMode {
        base.SetBatchMode(Sum(PermutedPairCounts(circuits)));
      }
      var commitIdx := 0;
      commitIdx := CommitInOrder(batch, commitIdx);
      if base.pcs.supportsBatchMode {
        base.RetrieveAndWriteBatchCommitmentsToProof();
      }
      assert base.transcript == log0 + CommitmentEvents(batch);
    }

    /** Squeeze beta and gamma, create the random poly, commit the second batch. */
    method GrandProductRound(circuits: seq<Circuit>, vanishing: VanishingProver, sampled: BlindedPoly)
      requires Valid() && vanishing.phase == Initial
      modifies base, vanishing
      ensures Valid() && base.blinder == old(base.blinder)
      ensures vanishing.phase == RandomPolyCommitted && vanishing.randomPoly == Some(sampled)
      ensures vanishing.hEvals == old(vanishing.hEvals) && vanishing.hPoly == old(vanishing.hPoly)
      ensures vanishing.combinedHPoly == old(vanishing.combinedHPoly) && vanishing.hBlinds == old(vanishing.hBlinds)
      ensures base.transcript == old(base.transcript) + GrandProductRoundEvents(circuits)
    {
      base.SqueezeChallenge(Beta);
      base.SqueezeChallenge(Gamma);
      ghost var log0 := base.Log();
      vanishing.CreateRandomPoly(sampled);
      var permutationBatch := CircuitMajor(PermutationProductCounts(circuits), PermutationProductOf);
      var lookupBatch := CircuitMajor(LookupProductCounts(circuits), LookupProductOf);
      CircuitMajorLength(PermutationProductCounts(circuits), PermutationProductOf);
      CircuitMajorLength(LookupProductCounts(circuits), LookupProductOf);
      if base.pcs.supportsBatchMode {
        base.SetBatchMode(GrandProductBatchSize(circuits));
      }
      var commitIdx := 0;
      commitIdx := CommitInOrder(permutationBatch, commitIdx);
      ghost var log1 := base.Log();
      commitIdx := CommitInOrder(lookupBatch, commitIdx);
      ghost var log2 := base.Log();
      commitIdx := vanishing.CommitRandomPoly(base, commitIdx);
      ghost var log3 := base.Log();
      if base.pcs.supportsBatchMode {
        base.RetrieveAndWriteBatchCommitmentsToProof();
      }
      assert base.transcript == log3;
      var a, b, c := CommitmentEvents(permutationBatch), CommitmentEvents(lookupBatch), [CommitmentWritten(RandomPolyCommitment)];
      assert log3 == ((log0 + a) + b) + c;
      GrandProductEventsSplit(permutationBatch, lookupBatch);
      AppendAssoc(log0 + a, b, c);
      AppendAssoc(log0, a, b + c);
      AppendAssoc(a, b, c);
      var gp := CommitmentEvents(GrandProductCommitments(circuits));
      assert log3 == log0 + gp;
      AppendAssoc(old(base.transcript) + [ChallengeSqueezed(Beta)], [ChallengeSqueezed(Gamma)], gp);
      AppendAssoc(old(base.transcript), [ChallengeSqueezed(Beta)], [ChallengeSqueezed(Gamma)] + gp);
    }

    /** Squeeze y, build and split the quotient, commit its pieces as the third batch. */
    method QuotientRound(cs: ConstraintSystem, vanishing: VanishingProver, evals: ExtendedEvals, quotient: ExtendedPoly)
      requires Valid() && vanishing.phase == RandomPolyCommitted && cs.degree >= 1
      modifies base, vanishing
      ensures Valid() && base.blinder == old(base.blinder)
      ensures vanishing.phase == HCommitted && vanishing.hEvals == Some(evals) && vanishing.hPoly == Some(quotient)
      ensures |vanishing.hBlinds| == GetNumFinalHPolyCommitment(cs)
      ensures vanishing.randomPoly == old(vanishing.randomPoly) && vanishing.combinedHPoly == old(vanishing.combinedHPoly)
      ensures base.transcript == old(base.transcript) + QuotientRoundEvents(cs)
    {
      base.SqueezeChallenge(Y);
      ghost var log0 := base.Log();
      vanishing.CreateHEvals(evals);
      vanishing.CreateFinalHPoly(cs, quotient);
      if base.pcs.supportsBatchMode {
        base.SetBatchMode(GetNumFinalHPolyCommitment(cs));
      }
      var commitIdx := 0;
      commitIdx := vanishing.CommitFinalHPoly(base, cs, commitIdx);
      if base.pcs.supportsBatchMode {
        base.RetrieveAndWriteBatchCommitmentsToProof();
      }
      assert base.transcript == log0 + CommitmentEvents(HPieceCommitments(GetNumFinalHPolyCommitment(cs)));
    }

    /**
     * Evaluate: the vanishing argument evaluates at x with x_n = x^N, then the
     * permutation key and provers at their points, then the lookup provers.
     */
    method Evaluate(vanishing: VanishingProver, combined: Poly, permutationRotations: seq<int>, lookupRotations: seq<int>)
      requires Valid() && vanishing.phase == HCommitted
      modifies base, vanishing
      ensures Valid() && base.blinder == old(base.blinder)
      ensures vanishing.phase == Evaluated && vanishing.combinedHPoly == Some(combined)
      ensures vanishing.randomPoly == old(vanishing.randomPoly) && vanishing.hEvals == old(vanishing.hEvals)
      ensures vanishing.hPoly == old(vanishing.hPoly) && vanishing.hBlinds == old(vanishing.hBlinds)
      ensures base.transcript == old(base.transcript) + [
                EvaluationsWritten(VanishingEvals(base.pcs.n)),
                EvaluationsWritten(PermutationKeyEvals(permutationRotations)),
                EvaluationsWritten(PermutationEvals(permutationRotations)),
                EvaluationsWritten(LookupEvals(lookupRotations))]
    {
      vanishing.BatchEvaluate(base, base.pcs.n, combined);
      base.WriteToTranscript(EvaluationsWritten(PermutationKeyEvals(permutationRotations)));
      base.WriteToTranscript(EvaluationsWritten(PermutationEvals(permutationRotations)));
      base.WriteToTranscript(EvaluationsWritten(LookupEvals(lookupRotations)));
    }

    /**
     * Open: assembles the opening list and aborts (None) when its length is
     * not the predicted count.
     */
    method Open(pk: ProvingKey, circuits: seq<Circuit>, vanishing: VanishingProver) returns (r: Option<seq<Opening>>)
      requires vanishing.phase == Evaluated && |circuits| >= 1
      ensures r.Some? <==> OpeningCountsAgree(pk, circuits)
      ensures r.Some? ==> r.value == OpeningList(base.pcs.queryInstance, pk, circuits)
      ensures r.Some? ==> |r.value| == PredictedOpeningCount(base.pcs.queryInstance, pk, circuits)
    {
      var q := base.pcs.queryInstance;
      var size := PredictedOpeningCount(q, pk, circuits);
      var openings: seq<Opening> := [];
      for i := 0 to |circuits|
        invariant openings == CircuitOpenings(q, pk.cs, circuits[..i])
      {
        ghost var before := openings;
        var advice := AdviceInstanceOpenings(q, pk.cs, i);
        var permutation := PermutationOpenings(i, circuits[i].permutation.emittedOpenings);
        var lookup := LookupOpenings(i, circuits[i].lookup.emittedOpenings);
        openings := OpenAdviceInstanceColumns(q, pk.cs, i, openings);
        openings := openings + permutation;
        openings := openings + lookup;
        AppendAssoc(before + advice, permutation, lookup);
        AppendAssoc(before, advice, permutation + lookup);
        AppendAssoc(advice, permutation, lookup);
        assert circuits[..i + 1][..i] == circuits[..i];
      }
      assert circuits[..|circuits|] == circuits;
      openings := OpenFixedColumns(pk.cs, openings);
      openings := openings + PermutationKeyOpenings(pk.permutationKey.emittedOpenings);
      openings := vanishing.Open(openings);
      OpeningListLength(q, pk, circuits);
      if |openings| != size {
        return None;
      }
      return Some(openings);
    }

    /**
     * CreateProof: checks the instance counts before writing anything, then
     * writes the verifying key, builds the argument data and runs the
     * protocol. `argumentData` is what ArgumentData::Create writes; the values
     * of the left-out arithmetic are arbitrary.
     */
    method CreateProof(pk: ProvingKey, instanceColumnsVec: seq<nat>, circuits: seq<Circuit>,
                       argumentData: seq<Event>, openingProofOk: bool)
      returns (result: ProofResult)
      requires Valid() && pk.cs.degree >= 1 && ArgumentDataWrites(argumentData)
      requires InstancesMatch(pk.cs, instanceColumnsVec, circuits) ==> |circuits| >= 1
      modifies base
      ensures Valid() && base.blinder == old(base.blinder)
      ensures (result == Aborted(InstanceCountMismatch)) <==> !InstancesMatch(pk.cs, instanceColumnsVec, circuits)
      ensures result == Aborted(InstanceCountMismatch) ==> base.transcript == old(base.transcript)
      ensures (result == Aborted(OpeningCountMismatch))
          <==> (InstancesMatch(pk.cs, instanceColumnsVec, circuits) && !OpeningCountsAgree(pk, circuits))
      ensures result.Proved?
          <==> (InstancesMatch(pk.cs, instanceColumnsVec, circuits) && OpeningCountsAgree(pk, circuits) && openingProofOk)
      ensures result.Proved? ==>
                && base.transcript == old(base.transcript)
                     + ProofTranscript(base.pcs, base.blinder.blindingFactors, pk.cs, circuits, argumentData)
                && result.openings == OpeningList(base.pcs.queryInstance, pk, circuits)
                && |result.openings| == PredictedOpeningCount(base.pcs.queryInstance, pk, circuits)
                && result.points == EvaluationPoints(base.blinder.blindingFactors, base.pcs.n)
    {
      var instancesOk := CheckInstances(pk.cs, instanceColumnsVec, circuits);
      if !instancesOk {
        return Aborted(InstanceCountMismatch);
      }
      ghost var t0 := base.transcript;
      base.WriteToTranscript(VkReprWritten);
      WriteArgumentData(argumentData);
      result := Prove(pk, circuits, openingProofOk);
      if result.Proved? {
        HeaderThenProtocol(t0, argumentData, ProtocolEvents(base.pcs, base.blinder.blindingFactors, pk.cs, circuits));
      }
    }

    /** ArgumentData::Create writes its commitments and squeezes its challenges in order. */
    method WriteArgumentData(argumentData: seq<Event>)
      requires Valid()
      modifies base
      ensures Valid() && base.blinder == old(base.blinder)
      ensures base.transcript == old(base.transcript) + argumentData
    {
      for i := 0 to |argumentData|
        invariant Valid() && base.blinder == old(base.blinder)
        invariant base.transcript == old(base.transcript) + argumentData[..i]
      {
        base.WriteToTranscript(argumentData[i]);
        assert argumentData[..i + 1] == argumentData[..i] + [argumentData[i]];
      }
      assert argumentData[..|argumentData|] == argumentData;
    }

    /** The two CHECKs on the instance columns: one entry per circuit, each of the key's width. */
    method CheckInstances(cs: ConstraintSystem, instanceColumnsVec: seq<nat>, circuits: seq<Circuit>) returns (ok: bool)
      ensures ok <==> InstancesMatch(cs, instanceColumnsVec, circuits)
    {
      if |circuits| != |instanceColumnsVec| {
        return false;
      }
      for i := 0 to |instanceColumnsVec|
        invariant forall k :: 0 <= k < i ==> instanceColumnsVec[k] == cs.numInstanceColumns
      {
        if instanceColumnsVec[i] != cs.numInstanceColumns {
          return false;
        }
      }
      return true;
    }

    /** The protocol after the argument data exists (the private CreateProof overload). */
    method Prove(pk: ProvingKey, circuits: seq<Circuit>, openingProofOk: bool) returns (result: ProofResult)
      requires Valid() && pk.cs.degree >= 1 && |circuits| >= 1
      modifies base
      ensures result.Proved? || result == Aborted(OpeningCountMismatch) || result == Aborted(OpeningProofFailed)
      ensures (result == Aborted(OpeningCountMismatch)) <==> !OpeningCountsAgree(pk, circuits)
      ensures result.Proved? <==> (OpeningCountsAgree(pk, circuits) && openingProofOk)
      ensures Valid() && base.blinder == old(base.blinder)
      ensures result.Proved? ==>
                && base.transcript == old(base.transcript)
                     + ProtocolEvents(base.pcs, base.blinder.blindingFactors, pk.cs, circuits)
                && result.openings == OpeningList(base.pcs.queryInstance, pk, circuits)
                && |result.openings| == PredictedOpeningCount(base.pcs.queryInstance, pk, circuits)
                && result.points == EvaluationPoints(base.blinder.blindingFactors, base.pcs.n)
    {
      var vanishing := new VanishingProver();
      var sampled: BlindedPoly := *;
      var evals: ExtendedEvals := *;
      var quotient: ExtendedPoly := *;
      var combined: Poly := *;
      ghost var t0 := base.transcript;
      PermutedPairsRound(circuits);
      GrandProductRound(circuits, vanishing, sampled);
      QuotientRound(pk.cs, vanishing, evals, quotient);
      result := OpeningRound(pk, circuits, vanishing, combined, openingProofOk);
      if result.Proved? {
        var r1, r2 := PermutedPairsRoundEvents(circuits), GrandProductRoundEvents(circuits);
        var r3, r4 := QuotientRoundEvents(pk.cs), OpeningRoundEvents(base.pcs.n, base.blinder.blindingFactors);
        assert base.transcript == ((t0 + r1) + r2) + r3 + r4;
        AppendAssoc((t0 + r1) + r2, r3, r4);
        AppendAssoc(t0 + r1, r2, r3 + r4);
        AppendAssoc(t0, r1, r2 + (r3 + r4));
      }
    }

    /** The point set of the opening round: x, x_prev, x_next and x_last, inserted in that order. */
    method BuildPointSet(n: nat, blindingFactors: nat) returns (points: seq<int>)
      requires n >= 1
      ensures points == EvaluationPoints(blindingFactors, n)
    {
      points := Insert([], PointOf(0, n));
      points := Insert(points, PointOf(-1, n));
      points := Insert(points, PointOf(1, n));
      points := Insert(points, PointOf(LastRotation(blindingFactors), n));
    }

    /**
     * Squeeze x, evaluate, build the point set, open, and write the opening
     * proof. The opening proof's own check is the parameter openingProofOk.
     */
    method OpeningRound(pk: ProvingKey, circuits: seq<Circuit>, vanishing: VanishingProver, combined: Poly, openingProofOk: bool)
      returns (result: ProofResult)
      requires Valid() && vanishing.phase == HCommitted && |circuits| >= 1
      modifies base, vanishing
      ensures Valid() && base.blinder == old(base.blinder)
      ensures vanishing.phase == Evaluated && vanishing.combinedHPoly == Some(combined)
      ensures vanishing.randomPoly == old(vanishing.randomPoly) && vanishing.hEvals == old(vanishing.hEvals)
      ensures vanishing.hPoly == old(vanishing.hPoly) && vanishing.hBlinds == old(vanishing.hBlinds)
      ensures result.Proved? || result == Aborted(OpeningCountMismatch) || result == Aborted(OpeningProofFailed)
      ensures (result == Aborted(OpeningCountMismatch)) <==> !OpeningCountsAgree(pk, circuits)
      ensures result.Proved? <==> (OpeningCountsAgree(pk, circuits) && openingProofOk)
      ensures result.Proved? ==>
                && base.transcript == old(base.transcript) + OpeningRoundEvents(base.pcs.n, base.blinder.blindingFactors)
                && result.openings == OpeningList(base.pcs.queryInstance, pk, circuits)
                && |result.openings| == PredictedOpeningCount(base.pcs.queryInstance, pk, circuits)
                && result.points == EvaluationPoints(base.blinder.blindingFactors, base.pcs.n)
    {
      ghost var t0 := base.transcript;
      base.SqueezeChallenge(X);
      var blindingFactors := base.blinder.blindingFactors;
      Evaluate(vanishing, combined, PermutationRotations(blindingFactors), LookupRotations());
      ghost var evals := EvaluationEvents(base.pcs.n, blindingFactors);
      assert base.transcript == (t0 + [ChallengeSqueezed(X)]) + evals;
      var points := BuildPointSet(base.pcs.n, blindingFactors);
      var openings := Open(pk, circuits, vanishing);
      if openings.None? {
        return Aborted(OpeningCountMismatch);
      }
      if !openingProofOk {
        return Aborted(OpeningProofFailed);
      }
      base.WriteToTranscript(OpeningProofWritten);
      AppendAssoc(t0 + [ChallengeSqueezed(X)], evals, [OpeningProofWritten]);
      AppendAssoc(t0, [ChallengeSqueezed(X)], evals + [OpeningProofWritten]);
      return Proved(openings.value, points);
    }
  }
}
