/**
 * The list updates every collection of the onboarding form goes through:
 * append-by-spread of an admitted entry (`[...prev, entry]`) and
 * remove-at-index (`prev.filter((_, i) => i !== idx)`).
 */
module Collections {

  /**
   * `s.filter((_, i) => i !== idx)`: every element whose position is not
   * `idx` is kept, in order. An index outside the list removes nothing.
   */
  function RemoveAt<T>(s: seq<T>, idx: int): (r: seq<T>)
    ensures 0 <= idx < |s| ==> r == s[..idx] + s[idx + 1..] && |r| == |s| - 1
    ensures !(0 <= idx < |s|) ==> r == s
    decreases |s|
  {
    if s == [] then []
    else (if idx == 0 then [] else [s[0]]) + RemoveAt(s[1..], idx - 1)
  }

  /** Whatever holds of every element of `s` holds of every element left after a removal. */
  lemma RemoveAtKeepsElements<T>(s: seq<T>, idx: int)
    ensures forall i | 0 <= i < |RemoveAt(s, idx)| :: RemoveAt(s, idx)[i] in s
  {
    var r := RemoveAt(s, idx);
    if 0 <= idx < |s| {
      forall i | 0 <= i < |r| ensures r[i] in s {
        if i < idx { assert r[i] == s[i]; } else { assert r[i] == s[i + 1]; }
      }
    }
  }

  /**
   * One user action on a collection: an add attempt (with the validator's
   * verdict on the draft) or a removal by index.
   */
  datatype Edit<T> = Append(item: T, admitted: bool) | RemoveIndex(index: int)

  /** The collection after one edit: an add that the validator rejected changes nothing. */
  function ApplyEdit<T>(s: seq<T>, e: Edit<T>): (r: seq<T>)
    ensures e.Append? && e.admitted ==> r == s + [e.item]
    ensures e.Append? && !e.admitted ==> r == s
    ensures e.RemoveIndex? ==> r == RemoveAt(s, e.index)
  {
    match e
    case Append(x, ok) => if ok then s + [x] else s
    case RemoveIndex(i) => RemoveAt(s, i)
  }

  /** The collection after a sequence of edits, applied in order. */
  function Replay<T>(s: seq<T>, edits: seq<Edit<T>>): seq<T>
    decreases |edits|
  {
    if edits == [] then s else Replay(ApplyEdit(s, edits[0]), edits[1..])
  }

  /** The number of add attempts the validator admitted. */
  function AdmittedAdds<T>(edits: seq<Edit<T>>): nat
    decreases |edits|
  {
    if edits == [] then 0
    else (if edits[0].Append? && edits[0].admitted then 1 else 0) + AdmittedAdds(edits[1..])
  }

  /** The number of removals whose index was in range when they happened. */
  function CompletedRemovals<T>(s: seq<T>, edits: seq<Edit<T>>): nat
    decreases |edits|
  {
    if edits == [] then 0
    else
      (if edits[0].RemoveIndex? && 0 <= edits[0].index < |s| then 1 else 0)
      + CompletedRemovals(ApplyEdit(s, edits[0]), edits[1..])
  }

  /**
   * Over any sequence of edits the length of a collection is its initial
   * length plus the admitted adds minus the completed removals; rejected
   * adds and out-of-range removals never change it.
   */
  lemma {:induction false} ReplayLength<T>(s: seq<T>, edits: seq<Edit<T>>)
    ensures |Replay(s, edits)| == |s| + AdmittedAdds(edits) - CompletedRemovals(s, edits)
    decreases |edits|
  {
    if edits != [] {
      ReplayLength(ApplyEdit(s, edits[0]), edits[1..]);
    }
  }

  /** Every element of a replayed collection was there at the start or came in through an admitted add. */
  lemma {:induction false} ReplayOnlyAdmits<T>(s: seq<T>, edits: seq<Edit<T>>, x: T)
    requires x in Replay(s, edits)
    ensures x in s || exists k | 0 <= k < |edits| :: edits[k] == Append(x, true)
    decreases |edits|
  {
    if edits != [] {
      var s' := ApplyEdit(s, edits[0]);
      ReplayOnlyAdmits(s', edits[1..], x);
      if edits[0].RemoveIndex? {
        RemoveAtKeepsElements(s, edits[0].index);
      }
      if x in s' && x !in s {
        assert edits[0] == Append(x, true);
      } else if x !in s' {
        var k :| 0 <= k < |edits[1..]| && edits[1..][k] == Append(x, true);
        assert edits[k + 1] == Append(x, true);
      }
    }
  }
}
