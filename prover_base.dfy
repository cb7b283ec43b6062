/**
 * The state every prover component writes through: the transcript writer,
 * the commitment scheme's batch-mode accumulator and the blinder.
 */
module ProverBase {
  import opened Protocol

  /** The capabilities of the commitment scheme that the protocol depends on. */
  datatype Pcs = Pcs(supportsBatchMode: bool, queryInstance: bool, n: nat)

  /** The XORShift generator, identified by the seed it was created from. */
  datatype Rng = Rng(seed: seq<bv8>)

  /** A random field generator holds a non-owning reference to an Rng. */
  datatype FieldGenerator = FieldGenerator(rng: Rng)

  /** A blinder draws its blinding values from a field generator. */
  datatype Blinder = Blinder(generator: FieldGenerator, blindingFactors: nat)

  class ProverBase {
    const pcs: Pcs
    /** Everything written to the proof so far (append-only). */
    var transcript: seq<Event>
    /** Batch mode: whether it is on, the declared count and the commitments so far. */
    var inBatchMode: bool
    var declared: nat
    var pending: seq<Commitment>
    var blinder: Blinder

    ghost predicate Valid()
      reads this
    {
      && (inBatchMode ==> pcs.supportsBatchMode && |pending| <= declared)
      && (!inBatchMode ==> pending == [])
    }

    /**
     * The transcript as it will read once the pending batch is written:
     * committing in batch mode only defers the writes, it never reorders them.
     */
    function Log(): (r: seq<Event>)
      reads this
      ensures |r| == |transcript| + |pending| && r[..|transcript|] == transcript
      ensures pending == [] ==> r == transcript
    {
      transcript + CommitmentEvents(pending)
    }

    constructor (pcs: Pcs, blinder: Blinder)
      ensures this.pcs == pcs && this.blinder == blinder
      ensures Valid() && transcript == [] && !inBatchMode
    {
      this.pcs := pcs;
      this.blinder := blinder;
      transcript := [];
      inBatchMode := false;
      declared := 0;
      pending := [];
    }

    method WriteToTranscript(e: Event)
      requires Valid() && !inBatchMode
      modifies this
      ensures Valid() && !inBatchMode && blinder == old(blinder)
      ensures transcript == old(transcript) + [e]
    {
      transcript := transcript + [e];
    }

    /** Squeezing a challenge records it; its value is a function of all earlier writes. */
    method SqueezeChallenge(c: Challenge)
      requires Valid() && !inBatchMode
      modifies this
      ensures Valid() && !inBatchMode && blinder == old(blinder)
      ensures transcript == old(transcript) + [ChallengeSqueezed(c)]
    {
      transcript := transcript + [ChallengeSqueezed(c)];
    }

    /** SetBatchMode: declares how many commitments the next batch holds. */
    method SetBatchMode(count: nat)
      requires Valid() && pcs.supportsBatchMode && !inBatchMode
      modifies this
      ensures Valid() && inBatchMode && declared == count && pending == []
      ensures transcript == old(transcript) && blinder == old(blinder)
    {
      inBatchMode := true;
      declared := count;
      pending := [];
    }

    /**
     * Commits the polynomial behind `c` as the commitIdx-th of its batch: in
     * batch mode it is stored at that slot, otherwise written at once.
     */
    method CommitAt(c: Commitment, commitIdx: nat) returns (next: nat)
      requires Valid() && inBatchMode == pcs.supportsBatchMode
      requires inBatchMode ==> commitIdx == |pending| && commitIdx < declared
      modifies this
      ensures Valid() && inBatchMode == old(inBatchMode) && declared == old(declared)
      ensures blinder == old(blinder)
      ensures next == commitIdx + 1
      ensures Log() == old(Log()) + [CommitmentWritten(c)]
      ensures inBatchMode ==> pending == old(pending) + [c] && transcript == old(transcript)
    {
      if inBatchMode {
        pending := pending + [c];
        CommitmentEventsAppend(old(pending), [c]);
      } else {
        transcript := transcript + [CommitmentWritten(c)];
      }
      next := commitIdx + 1;
    }

    /**
     * RetrieveAndWriteBatchCommitmentsToProof: writes the whole batch in slot
     * order. The batch must be full: exactly the declared count was committed.
     */
    method RetrieveAndWriteBatchCommitmentsToProof()
      requires Valid() && inBatchMode && |pending| == declared
      modifies this
      ensures Valid() && !inBatchMode && blinder == old(blinder)
      ensures transcript == old(Log()) == Log()
    {
      transcript := transcript + CommitmentEvents(pending);
      pending := [];
      inBatchMode := false;
    }
  }
}
