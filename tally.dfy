/** The `colorCounts` getter: a tally of the category of every stored slot,
    filters ignored, seeded with zero counts for the three known colours. */
module ColorCountsView {
  import opened JsValues
  import opened TimeSlotTypes
  import opened Totals

  /** The accumulator the reduce starts from. */
  function Seed(): (m: map<string, nat>)
    ensures m.Keys == {"green", "yellow", "red"}
    ensures forall k :: k in m ==> m[k] == 0
  {
    map["green" := 0, "yellow" := 0, "red" := 0]
  }

  /** `counts[slot.category]` indexes the dictionary by the category's string form. */
  function CategoryKey(s: TimeSlot): string {
    PropertyKey(s.category)
  }

  /** The reduce of lines 99 to 109. Every stored count is a number, so
      `counts[k] || 0` is the count when the key is present and 0 otherwise. */
  function ColorCounts(slots: seq<TimeSlot>): map<string, nat> {
    if slots == [] then Seed()
    else
      var counts := ColorCounts(slots[..|slots| - 1]);
      var k := CategoryKey(slots[|slots| - 1]);
      counts[k := (if k in counts then counts[k] else 0) + 1]
  }

  /** Reference definition: how many slots have category key k. */
  function CountOf(slots: seq<TimeSlot>, k: string): (n: nat)
    ensures n <= |slots|
  {
    if slots == [] then 0
    else (if CategoryKey(slots[0]) == k then 1 else 0) + CountOf(slots[1..], k)
  }

  lemma {:induction false} CountOfSnoc(slots: seq<TimeSlot>, x: TimeSlot, k: string)
    ensures CountOf(slots + [x], k) == CountOf(slots, k) + if CategoryKey(x) == k then 1 else 0
  {
    if slots != [] {
      assert (slots + [x])[1..] == slots[1..] + [x];
      CountOfSnoc(slots[1..], x, k);
    }
  }

  /** The keys are the three colours and the categories that occur, and each
      value is the number of slots with that category. */
  lemma {:induction false} ColorCountsAt(slots: seq<TimeSlot>, k: string)
    ensures k in ColorCounts(slots) <==> k in Seed() || exists i :: 0 <= i < |slots| && CategoryKey(slots[i]) == k
    ensures k in ColorCounts(slots) ==> ColorCounts(slots)[k] == CountOf(slots, k)
  {
    if slots != [] {
      var p := slots[..|slots| - 1];
      var x := slots[|slots| - 1];
      ColorCountsAt(p, k);
      CountOfSnoc(p, x, k);
      assert slots == p + [x];
      assert forall i :: 0 <= i < |p| ==> p[i] == slots[i];
      if k !in ColorCounts(p) {
        assert CountOf(p, k) == 0 by {
          CountOfAbsent(p, k);
        }
      }
    }
  }

  /** A key no slot has is counted zero times. */
  lemma {:induction false} CountOfAbsent(slots: seq<TimeSlot>, k: string)
    requires forall i :: 0 <= i < |slots| ==> CategoryKey(slots[i]) != k
    ensures CountOf(slots, k) == 0
  {
    if slots != [] {
      assert forall i :: 0 <= i < |slots| - 1 ==> slots[1..][i] == slots[i + 1];
      CountOfAbsent(slots[1..], k);
    }
  }

  /** The three colours are always present. */
  lemma ColorCountsHasSeed(slots: seq<TimeSlot>)
    ensures "green" in ColorCounts(slots) && "yellow" in ColorCounts(slots) && "red" in ColorCounts(slots)
  {
    ColorCountsAt(slots, "green");
    ColorCountsAt(slots, "yellow");
    ColorCountsAt(slots, "red");
  }

  /** The counts add up to the number of slots. */
  lemma {:induction false} ColorCountsTotal(slots: seq<TimeSlot>)
    ensures Total(ColorCounts(slots)) == |slots|
  {
    if slots == [] {
      TotalZero(Seed());
    } else {
      var p := slots[..|slots| - 1];
      var counts := ColorCounts(p);
      var k := CategoryKey(slots[|slots| - 1]);
      ColorCountsTotal(p);
      TotalUpdate(counts, k, (if k in counts then counts[k] else 0) + 1);
    }
  }

  /** An empty store gives exactly the three zero counts. */
  lemma ColorCountsEmpty()
    ensures ColorCounts([]) == map["green" := 0, "yellow" := 0, "red" := 0]
  {
  }
}
