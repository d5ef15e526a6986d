/** Worked scenarios: the outcomes the model proves for concrete inputs. */
module Scenarios {
  import opened JsValues
  import opened TimeSlotTypes
  import opened Normalizer
  import opened Seqs
  import opened Strings
  import opened GroupedView
  import opened ColorCountsView
  import opened AvailableDatesView
  import opened SlotFilter
  import opened TimeSlotStoreModel

  /** A slot with the given id, start time `date` + "T" + `time`, and colour. */
  function SlotAt(id: int, date: string, time: string, category: string): TimeSlot {
    var start := date + "T" + time;
    TimeSlot(Num(id), Str(start), Str(start), Str(category), Capacity(Num(0), Num(50)))
  }

  lemma SlotAtKey(id: int, date: string, time: string, category: string)
    requires 'T' !in date
    ensures SlotAt(id, date, time, category).start_time.Str?
    ensures Key(SlotAt(id, date, time, category)) == date
  {
    DateKeyBeforeT(date, time);
  }

  /** Three slots on two dates, one date repeated and out of order, give the
      two dates once each, ascending. */
  lemma AvailableDatesOfTwoDates(d1: string, d2: string, t1: string, t2: string, t3: string)
    requires 'T' !in d1 && 'T' !in d2 && Less(d1, d2)
    ensures AvailableDates([SlotAt(1, d2, t1, "green"), SlotAt(2, d1, t2, "green"), SlotAt(3, d2, t3, "red")])
            == Ok([d1, d2])
  {
    var slots := [SlotAt(1, d2, t1, "green"), SlotAt(2, d1, t2, "green"), SlotAt(3, d2, t3, "red")];
    var ds := [d1, d2];
    SlotAtKey(1, d2, t1, "green");
    SlotAtKey(2, d1, t2, "green");
    SlotAtKey(3, d2, t3, "red");
    assert AllText(slots);
    assert StrictlyAscending(ds);
    forall d
      ensures d in ds <==> IsDateOf(slots, d)
    {
      if d == d1 {
        assert slots[1].start_time.Str? && Key(slots[1]) == d;
      } else if d == d2 {
        assert slots[0].start_time.Str? && Key(slots[0]) == d;
      }
    }
    AvailableDatesUnique(slots, ds);
  }

  /** The same on calendar dates. */
  lemma AvailableDatesExample()
    ensures AvailableDates([SlotAt(1, "2024-03-02", "09:00", "green"),
                            SlotAt(2, "2024-03-01", "09:00", "green"),
                            SlotAt(3, "2024-03-02", "14:00", "red")])
            == Ok(["2024-03-01", "2024-03-02"])
  {
    LessAtFirstDifference("2024-03-0", '1', '2', "", "");
    assert "2024-03-0" + ['1'] + "" == "2024-03-01";
    assert "2024-03-0" + ['2'] + "" == "2024-03-02";
    AvailableDatesOfTwoDates("2024-03-01", "2024-03-02", "09:00", "09:00", "14:00");
  }

  /** Two green slots and one with a null category: the seeded colours are
      always present, and the null category is counted under "null". */
  lemma ColorCountsExample(a: TimeSlot, b: TimeSlot, c: TimeSlot)
    requires a.category == Str("green") && b.category == Str("green") && c.category == Null
    ensures ColorCounts([a, b, c]) == map["green" := 2, "yellow" := 0, "red" := 0, "null" := 1]
  {
    assert [a, b, c][..2] == [a, b] && [a, b][..1] == [a] && [a][..0] == [];
    assert ColorCounts([a]) == Seed()["green" := 1];
    assert ColorCounts([a, b]) == Seed()["green" := 2];
  }

  lemma WithKeyOfOne(a: TimeSlot, d: string)
    requires a.start_time.Str? && Key(a) == d
    ensures WithKey([a], d) == [a]
  {
    assert [a][..0] == [];
  }

  lemma WithKeyOfThree(a: TimeSlot, b: TimeSlot, c: TimeSlot, d: string)
    requires a.start_time.Str? && b.start_time.Str? && c.start_time.Str?
    requires Key(a) == d && Key(b) == d && Key(c) == d
    ensures WithKey([a, b, c], d) == [a, b, c]
  {
    WithKeyOfOne(a, d);
    assert [a, b][..1] == [a];
    assert WithKey([a, b], d) == [a, b];
    assert [a, b, c][..2] == [a, b];
  }

  lemma OnlyKeyOfThree(a: TimeSlot, b: TimeSlot, c: TimeSlot, d: string, k: string)
    requires a.start_time.Str? && b.start_time.Str? && c.start_time.Str?
    requires Key(a) == d && Key(b) == d && Key(c) == d
    requires k in GroupInto([a, b, c])
    ensures k == d
  {
    GroupIntoAt([a, b, c], k);
  }

  lemma SingletonMap<V>(g: map<string, V>, d: string, v: V)
    requires d in g && g[d] == v
    requires forall k :: k in g ==> k == d
    ensures g == map[d := v]
  {
  }

  /** With no filters set, three slots on the same date, met in the order
      a, b, c, land in their group as c, a, b. */
  lemma GroupOrderExample(a: TimeSlot, b: TimeSlot, c: TimeSlot, d: string)
    requires a.start_time.Str? && b.start_time.Str? && c.start_time.Str?
    requires Key(a) == d && Key(b) == d && Key(c) == d
    ensures Grouped([a, b, c], Filters("", "")) == Ok(map[d := [c, a, b]])
  {
    WithKeyOfThree(a, b, c, d);
    PushReverseThree(a, b, c);
    GroupIntoAt([a, b, c], d);
    FilterAllPass([a, b, c], Filters("", ""));
    forall k | k in GroupInto([a, b, c])
      ensures k == d
    {
      OnlyKeyOfThree(a, b, c, d, k);
    }
    SingletonMap(GroupInto([a, b, c]), d, [c, a, b]);
  }

  /** A record that names its times and its capacities by the alias names. */
  function AliasRecord(id: int, from: string, to: string, colour: string, capacity: RawCapacity): RawSlot {
    SlotObject(Num(id), Undef, Str(from), Undef, Str(to), Str(colour), capacity)
  }

  /** The snapshot of two alias-only records: canonical names, defaults for
      the missing capacities, and the response order reversed. */
  lemma AliasSnapshotExample(from1: string, to1: string, from2: string, to2: string)
    ensures Snapshot(Fetched([AliasRecord(1, from1, to1, "green", CapacityObject(Undef, Num(3), Undef, Num(10))),
                              AliasRecord(2, from2, to2, "red", CapacityScalar(Bool(true)))]))
         == Ok([TimeSlot(Num(2), Str(from2), Str(to2), Str("red"), Capacity(Num(0), Num(50))),
                TimeSlot(Num(1), Str(from1), Str(to1), Str("green"), Capacity(Num(3), Num(10)))])
  {
    var first := AliasRecord(1, from1, to1, "green", CapacityObject(Undef, Num(3), Undef, Num(10)));
    var second := AliasRecord(2, from2, to2, "red", CapacityScalar(Bool(true)));
    assert Normalize(first) == Ok(TimeSlot(Num(1), Str(from1), Str(to1), Str("green"), Capacity(Num(3), Num(10))));
    assert Normalize(second) == Ok(TimeSlot(Num(2), Str(from2), Str(to2), Str("red"), Capacity(Num(0), Num(50))));
    var n := NormalizeAll([first, second]);
    assert n.Ok? && |n.value| == 2;
    assert Reverse(n.value) == [n.value[1], n.value[0]];
  }

  /** The live update for the first record: the message's capacity and
      colour replace those of the slot with id 1; the other slot is kept. */
  lemma LiveUpdateExample(from1: string, to1: string, from2: string, to2: string)
    ensures var u := UpdateFromMessage(MessageObject(Num(1), Num(7), Undef, Str("yellow")));
      && u == Ok(UpdatedSlot(Num(1), Num(7), Str("yellow")))
      && ApplyUpdate([TimeSlot(Num(2), Str(from2), Str(to2), Str("red"), Capacity(Num(0), Num(50))),
                      TimeSlot(Num(1), Str(from1), Str(to1), Str("green"), Capacity(Num(3), Num(10)))], u.value)
         == [TimeSlot(Num(2), Str(from2), Str(to2), Str("red"), Capacity(Num(0), Num(50))),
             TimeSlot(Num(1), Str(from1), Str(to1), Str("yellow"), Capacity(Num(7), Num(10)))]
  {
    var slots := [TimeSlot(Num(2), Str(from2), Str(to2), Str("red"), Capacity(Num(0), Num(50))),
                  TimeSlot(Num(1), Str(from1), Str(to1), Str("green"), Capacity(Num(3), Num(10)))];
    assert FindIndex(slots, Num(1)) == 1;
  }

  /** A store loads two alias-only records, takes a live update for the
      record that came first in the response, then a null message, then a
      colour filter; the null message changes nothing. */
  method StoreScenario(from1: string, to1: string, from2: string, to2: string)
    returns (slots: seq<TimeSlot>, filters: Filters)
    ensures slots ==
      [TimeSlot(Num(2), Str(from2), Str(to2), Str("red"), Capacity(Num(0), Num(50))),
       TimeSlot(Num(1), Str(from1), Str(to1), Str("yellow"), Capacity(Num(7), Num(10)))]
    ensures filters == Filters("yellow", "")
  {
    var store := new TimeSlotStore();
    var first := AliasRecord(1, from1, to1, "green", CapacityObject(Undef, Num(3), Undef, Num(10)));
    var second := AliasRecord(2, from2, to2, "red", CapacityScalar(Bool(true)));
    AliasSnapshotExample(from1, to1, from2, to2);
    var outcome := store.FetchTimeSlots(Fetched([first, second]));
    assert outcome == Ok(());
    LiveUpdateExample(from1, to1, from2, to2);
    store.HandleMessage(MessageObject(Num(1), Num(7), Undef, Str("yellow")));
    store.HandleMessage(MessageScalar(Null));
    store.ApplyFilters("yellow", "");
    slots, filters := store.timeSlots, store.filters;
  }
}
