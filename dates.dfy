/** The `availableDates` getter: the distinct date keys of all stored slots,
    filters ignored, in ascending order. */
module AvailableDatesView {
  import opened JsValues
  import opened TimeSlotTypes
  import opened Seqs
  import opened Strings
  import opened GroupedView

  /** `timeSlots.map(slot => slot.start_time.split('T')[0])`. */
  function DateKeys(slots: seq<TimeSlot>): (ks: seq<string>)
    requires AllText(slots)
    ensures |ks| == |slots| && forall i :: 0 <= i < |slots| ==> ks[i] == Key(slots[i])
  {
    seq(|slots|, i requires 0 <= i < |slots| => Key(slots[i]))
  }

  /** `[...new Set(keys)].sort()`, or the TypeError that `split` throws on a
      start_time that is not a string. */
  function AvailableDates(slots: seq<TimeSlot>): Result<seq<string>, JsError> {
    if AllText(slots) then Ok(Sort(Dedup(DateKeys(slots)))) else Err(TypeError)
  }

  /** d is the date key of some stored slot. */
  ghost predicate IsDateOf(slots: seq<TimeSlot>, d: string) {
    exists i :: 0 <= i < |slots| && slots[i].start_time.Str? && Key(slots[i]) == d
  }

  /** The sorted, de-duplicated keys are strictly ascending. */
  lemma SortDedupAscending(ks: seq<string>)
    ensures StrictlyAscending(Sort(Dedup(ks)))
  {
    var ds := Dedup(ks);
    DistinctMultiset(ds);
    DistinctMultiset(Sort(ds));
    SortedDistinctIsStrict(Sort(ds));
  }

  /** The sorted, de-duplicated keys hold exactly the keys. */
  lemma SortDedupMembers(ks: seq<string>, d: string)
    ensures d in Sort(Dedup(ks)) <==> d in ks
  {
    var ds := Dedup(ks);
    assert d in Sort(ds) <==> d in multiset(Sort(ds));
    assert d in ds <==> d in multiset(ds);
    if d in ds {
      var i :| 0 <= i < |ds| && ds[i] == d;
    }
    if d in ks {
      var i :| 0 <= i < |ks| && ks[i] == d;
    }
  }

  /** The result is strictly ascending and holds exactly the date keys of the
      stored slots; it fails exactly when some start_time is not a string. */
  lemma AvailableDatesSpec(slots: seq<TimeSlot>)
    ensures AvailableDates(slots).Err? <==> !AllText(slots)
    ensures AvailableDates(slots).Ok? ==>
      && StrictlyAscending(AvailableDates(slots).value)
      && forall d :: d in AvailableDates(slots).value <==> IsDateOf(slots, d)
  {
    if AllText(slots) {
      var ks := DateKeys(slots);
      SortDedupAscending(ks);
      forall d
        ensures d in Sort(Dedup(ks)) <==> IsDateOf(slots, d)
      {
        SortDedupMembers(ks, d);
        if d in ks {
          var i :| 0 <= i < |ks| && ks[i] == d;
        }
        if IsDateOf(slots, d) {
          var i :| 0 <= i < |slots| && slots[i].start_time.Str? && Key(slots[i]) == d;
          assert ks[i] == d;
        }
      }
    }
  }

  /** Any strictly ascending list of exactly the stored date keys is the
      result, so the order of the library sort does not matter. */
  lemma AvailableDatesUnique(slots: seq<TimeSlot>, ds: seq<string>)
    requires AllText(slots)
    requires StrictlyAscending(ds)
    requires forall d :: d in ds <==> IsDateOf(slots, d)
    ensures AvailableDates(slots) == Ok(ds)
  {
    AvailableDatesSpec(slots);
    StrictlyAscendingUnique(AvailableDates(slots).value, ds);
  }
}
