/**
 * The batch-target normaliser: every multi-torrent command turns its target argument
 * (one infohash, a list of infohashes, or the sentinel "all") into the `hashes`
 * form field through this transform.
 */
module Infohash {
  import opened Strings

  /** The caller's target: a single string (possibly "all") or a list of infohashes. */
  datatype Target = Single(hash: string) | Many(hashes: seq<string>)

  /** The field separator the service expects between infohashes. */
  const Separator: char := '|'

  /** Each element lower-cased, in the same order (the list comprehension). */
  function LowerAll(hs: seq<string>): (r: seq<string>)
    ensures |r| == |hs|
    ensures forall i :: 0 <= i < |hs| ==> r[i] == Lower(hs[i])
  {
    if hs == [] then [] else [Lower(hs[0])] + LowerAll(hs[1..])
  }

  /** The wire value of the `hashes` field for a target. */
  function ProcessInfohashList(t: Target): (r: string)
    ensures Lower(r) == r
    ensures t.Single? ==> |r| == |t.hash|
    ensures t == Many([]) ==> r == ""
  {
    match t
    case Many(hs) =>
      LowerAllIsLower(hs);
      JoinOfLowerIsLower(LowerAll(hs), Separator);
      Join(LowerAll(hs), Separator)
    case Single(h) =>
      LowerIdempotent(h);
      Lower(h)
  }

  /** Every element of a lower-cased list is lower-case. */
  lemma LowerAllIsLower(hs: seq<string>)
    ensures forall i :: 0 <= i < |hs| ==> Lower(LowerAll(hs)[i]) == LowerAll(hs)[i]
  {
    forall i | 0 <= i < |hs| {
      LowerIdempotent(hs[i]);
    }
  }

  /** A single target is lower-cased as a whole and never split. */
  lemma SingleIsLowered(h: string)
    ensures ProcessInfohashList(Single(h)) == Lower(h)
    ensures |ProcessInfohashList(Single(h))| == |h|
    ensures Separator in h <==> Separator in ProcessInfohashList(Single(h))
  {
    LowerKeepsNonLetters(h, Separator);
  }

  /** The sentinel "all" comes through unchanged. */
  lemma AllIsUnchanged()
    ensures ProcessInfohashList(Single("all")) == "all"
  {
  }

  /** Normalising is idempotent on a single target. */
  lemma SingleIdempotent(h: string)
    ensures ProcessInfohashList(Single(ProcessInfohashList(Single(h)))) == ProcessInfohashList(Single(h))
  {
    LowerIdempotent(h);
  }

  /**
   * For a non-empty list of infohashes none of which contains the separator,
   * splitting the wire value on the separator gives back the lower-cased list,
   * in the original order.
   */
  lemma ManyRoundTrip(hs: seq<string>)
    requires |hs| >= 1
    requires forall i :: 0 <= i < |hs| ==> Separator !in hs[i]
    ensures Split(ProcessInfohashList(Many(hs)), Separator) == LowerAll(hs)
  {
    forall i | 0 <= i < |hs| ensures Separator !in LowerAll(hs)[i] {
      LowerKeepsNonLetters(hs[i], Separator);
    }
    SplitJoin(LowerAll(hs), Separator);
  }

  /** The i-th piece of a list's wire value is the i-th hash, lower-cased. */
  lemma ManyIsPiecewise(hs: seq<string>, i: nat)
    requires |hs| >= 1 && i < |hs|
    requires forall j :: 0 <= j < |hs| ==> Separator !in hs[j]
    ensures |Split(ProcessInfohashList(Many(hs)), Separator)| == |hs|
    ensures Split(ProcessInfohashList(Many(hs)), Separator)[i] == Lower(hs[i])
  {
    ManyRoundTrip(hs);
  }

  /** A mixed-case list: ["AB12", "cd34"] becomes "ab12|cd34". */
  lemma MixedCaseListExample()
    ensures ProcessInfohashList(Many(["AB12", "cd34"])) == "ab12|cd34"
  {
  }
}
