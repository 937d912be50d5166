/** Counting events in an interval of a sorted series. */
module Intervals {
  ghost predicate Sorted(times: seq<int>) { forall i, j :: 0 <= i < j < |times| ==> times[i] <= times[j] }

  /** The events of the closed interval of this width. */
  ghost function Hits(times: seq<int>, from: int, width: int): set<int> {
    set i | 0 <= i < |times| && from <= times[i] <= from + width
  }

  /** If an event never comes within `width` of the one `size` places before it,
      no closed interval of that width holds more than `size` events. */
  lemma FewInAnyInterval(times: seq<int>, from: int, width: int, size: nat)
    requires Sorted(times) && size > 0
    requires forall i :: 0 <= i < |times| - size ==> times[i + size] > times[i] + width
    ensures |Hits(times, from, width)| <= size
  {
    var hits := Hits(times, from, width);
    var first := FirstFrom(times, from);
    FirstFromLaws(times, from);
    forall j | j in hits ensures first <= j < first + size {
      if first + size < |times| {
        assert times[first + size] > times[first] + width;
      }
    }
    FitsIn(hits, first, size);
  }

  /** The first event at or after `from`. */
  ghost function FirstFrom(times: seq<int>, from: int): (i: nat)
    ensures i <= |times|
  {
    if times == [] || times[0] >= from then 0 else 1 + FirstFrom(times[1..], from)
  }

  lemma {:induction false} FirstFromLaws(times: seq<int>, from: int)
    ensures forall j :: 0 <= j < FirstFrom(times, from) ==> times[j] < from
    ensures FirstFrom(times, from) < |times| ==> times[FirstFrom(times, from)] >= from
  {
    if times != [] && times[0] < from {
      FirstFromLaws(times[1..], from);
      forall j | 0 < j < FirstFrom(times, from) ensures times[j] < from {
        assert times[j] == times[1..][j - 1];
      }
    }
  }

  lemma {:induction false} FitsIn(s: set<int>, from: int, size: nat)
    requires size > 0 && forall x :: x in s ==> from <= x < from + size
    ensures |s| <= size
  {
    if size == 1 {
      forall x | x in s ensures x in {from} {}
      assert s <= {from};
      assert s == {} || s == {from};
    } else {
      FitsIn(s - {from + size - 1}, from, size - 1);
    }
  }
}
