/** Splitting metrics into payloads under the size limit, and sending them. */
module MetricBatches {

  const MAX_PAYLOAD_BYTES: nat := 900000

  /** The encoded size of a payload is whatever the encoder makes it: any function of the samples in it. */
  type Encoder<!T> = seq<T> -> nat

  predicate Fits<T>(size: Encoder<T>, samples: seq<T>) {
    size(samples) <= MAX_PAYLOAD_BYTES || |samples| == 1
  }

  /** Halve until every part fits, or is a single sample. */
  function Batches<T>(size: Encoder<T>, samples: seq<T>): (batches: seq<seq<T>>)
    requires samples != []
    ensures batches != []
    decreases |samples|
  {
    if Fits(size, samples) then [samples]
    else
      var mid := |samples| / 2;
      Batches(size, samples[..mid]) + Batches(size, samples[mid..])
  }

  function Flatten<T>(batches: seq<seq<T>>): seq<T> {
    if batches == [] then [] else batches[0] + Flatten(batches[1..])
  }

  lemma {:induction false} FlattenConcat<T>(a: seq<seq<T>>, b: seq<seq<T>>)
    ensures Flatten(a + b) == Flatten(a) + Flatten(b)
  {
    if a == [] {
      assert a + b == b;
    } else {
      assert (a + b)[1..] == a[1..] + b;
      FlattenConcat(a[1..], b);
    }
  }

  /** No sample is lost, repeated or moved: the batches, in order, are the samples.  Each batch is within the limit or a
      single sample; none is empty, so there are at most as many batches as samples. */
  lemma {:induction false} BatchesConserveSamples<T>(size: Encoder<T>, samples: seq<T>)
    requires samples != []
    ensures Flatten(Batches(size, samples)) == samples
    ensures forall b :: b in Batches(size, samples) ==> b != [] && (size(b) <= 900_000 || |b| == 1)
    ensures |Batches(size, samples)| <= |samples|
    decreases |samples|
  {
    if Fits(size, samples) {
      assert Flatten([samples]) == samples + Flatten<T>([]);
    } else {
      var mid := |samples| / 2;
      var left, right := Batches(size, samples[..mid]), Batches(size, samples[mid..]);
      BatchesConserveSamples(size, samples[..mid]);
      BatchesConserveSamples(size, samples[mid..]);
      FlattenConcat(left, right);
      assert samples == samples[..mid] + samples[mid..];
      assert forall b :: b in left + right ==> b in left || b in right;
    }
  }

  /** Nothing is split that need not be. */
  lemma OneBatchExactlyWhenItFits<T>(size: Encoder<T>, samples: seq<T>)
    requires samples != []
    ensures |Batches(size, samples)| == 1 <==> size(samples) <= 900_000 || |samples| == 1
  {
    if !Fits(size, samples) {
      var mid := |samples| / 2;
      assert |Batches(size, samples[..mid])| >= 1 && |Batches(size, samples[mid..])| >= 1;
    }
  }

  // ---------------------------------------------------------------- sending

  /** What posting a batch comes to: accepted, or refused after one or two notes of failure (the second when looking the
      address up over HTTPS failed as well). */
  datatype Posted = Accepted | Refused(notes: nat)

  class NewRelicClient<!T> {
    const enabled: bool
    const size: Encoder<T>
    var consecutiveFailures: nat
    /** Every batch posted, accepted or not. */
    ghost var posted: seq<seq<T>>

    constructor (enabled: bool, size: Encoder<T>)
      ensures this.enabled == enabled && this.size == size && consecutiveFailures == 0 && posted == []
    {
      this.enabled, this.size := enabled, size;
      consecutiveFailures, posted := 0, [];
    }

    /** Post batches in order, up to the first that is refused. */
    method PostAll(batches: seq<seq<T>>, replies: seq<Posted>) returns (ok: bool, sent: nat)
      requires |replies| >= |batches|
      modifies this
      ensures sent <= |batches| && posted == old(posted) + batches[..sent]
      ensures if ok then sent == |batches| && consecutiveFailures == old(consecutiveFailures)
              else sent > 0 && replies[sent - 1].Refused?
                   && consecutiveFailures == old(consecutiveFailures) + replies[sent - 1].notes
      ensures forall i :: 0 <= i < (if ok then sent else sent - 1) ==> replies[i].Accepted?
    {
      sent := 0;
      while sent < |batches|
        invariant sent <= |batches|
        invariant posted == old(posted) + batches[..sent] && consecutiveFailures == old(consecutiveFailures)
        invariant forall i :: 0 <= i < sent ==> replies[i].Accepted?
      {
        posted := posted + [batches[sent]];
        assert batches[..sent + 1] == batches[..sent] + [batches[sent]];
        sent := sent + 1;
        if replies[sent - 1].Refused? {
          consecutiveFailures := consecutiveFailures + replies[sent - 1].notes;
          return false, sent;
        }
      }
      ok := true;
    }

    /** Send the samples: True when every batch was accepted, and then the batches posted are the samples.  `replies` is
        what the endpoint would say to each batch. */
    method Send(samples: seq<T>, replies: seq<Posted>) returns (ok: bool, ghost sent: nat)
      requires |replies| >= |samples|
      modifies this
      ensures !enabled || samples == [] ==>
                !ok && posted == old(posted) && consecutiveFailures == old(consecutiveFailures)
      ensures enabled && samples != [] ==>
                sent <= |Batches(size, samples)| && posted == old(posted) + Batches(size, samples)[..sent]
                && if ok then consecutiveFailures == 0 && Flatten(posted[|old(posted)|..]) == samples
                   else 0 < sent <= |replies| && replies[sent - 1].Refused?
                        && consecutiveFailures == old(consecutiveFailures) + replies[sent - 1].notes
      ensures enabled && samples != [] ==>
                sent <= |replies| && forall i :: 0 <= i < (if ok then sent else sent - 1) ==> replies[i].Accepted?
    {
      sent := 0;
      if !enabled || samples == [] {
        return false, 0;
      }
      BatchesConserveSamples(size, samples);
      hide Batches, Flatten, Fits;
      var batches := Batches(size, samples);
      ok, sent := PostAll(batches, replies);
      if ok {
        assert batches[..|batches|] == batches;
        assert posted[|old(posted)|..] == batches;
        consecutiveFailures := 0;
      }
    }
  }
}
