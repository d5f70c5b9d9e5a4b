/**
 * Morgan fingerprint bit counts (get_fingerprint_as_bit_counts in
 * scripts/mpscore.py). The hashing itself is a foreign call: its 0/1 bit list
 * and its map from bit index to the atom environments that set the bit are
 * inputs here. The count overlay replaces each mapped bit by the number of
 * environments that set it.
 */
module Fingerprint {
  import opened Wrappers

  /** One atom environment that set a bit: its centre atom and its radius. */
  datatype Activator = Activator(atom: nat, radius: nat)

  /** Assigning to a bit index beyond the end of the list raises an index error. */
  datatype OverlayError = BitOutOfRange(bit: nat)

  /**
   * Copies `bits` into a fresh list and overwrites, for every bit of `info`,
   * that position with the number of its activators. The bits of `info` are
   * visited in no particular order; distinct bits touch distinct positions.
   */
  method BitCounts(bits: seq<nat>, info: map<nat, seq<Activator>>) returns (r: Result<seq<nat>, OverlayError>)
    ensures r.Failure? <==> exists b :: b in info && b >= |bits|
    ensures r.Failure? ==> r.error.bit in info && r.error.bit >= |bits|
    ensures r.Success? ==> |r.value| == |bits|
    ensures r.Success? ==> forall i :: 0 <= i < |bits| && i in info ==> r.value[i] == |info[i]|
    ensures r.Success? ==> forall i :: 0 <= i < |bits| && i !in info ==> r.value[i] == bits[i]
  {
    var fp := new nat[|bits|](i requires 0 <= i < |bits| => bits[i]);
    var pending := info.Keys;
    while pending != {}
      invariant pending <= info.Keys
      invariant forall b :: b in info && b !in pending ==> b < fp.Length
      invariant forall i :: 0 <= i < fp.Length ==>
                  fp[i] == if i in info && i !in pending then |info[i]| else bits[i]
      decreases pending
    {
      var bit :| bit in pending;
      if bit >= fp.Length {
        return Failure(BitOutOfRange(bit));
      }
      fp[bit] := |info[bit]|;
      pending := pending - {bit};
    }
    return Success(fp[..]);
  }
}
