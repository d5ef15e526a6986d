/** The filter state and the slot filter of the `groupedTimeSlots` getter. */
module SlotFilter {
  import opened JsValues
  import opened TimeSlotTypes
  import opened Strings

  /** The store's filter fields; an empty string means "no filter". */
  datatype Filters = Filters(color: string, date: string)

  /** `!filters.color || slot.category === filters.color`: with a colour
      set, only a string category equal to it matches, so a numeric or null
      category never does. */
  predicate ColorMatches(s: TimeSlot, color: string): (b: bool)
    ensures color == "" ==> b
    ensures color != "" ==> (b <==> s.category.Str? && s.category.s == color)
  {
    color == "" || s.category == Str(color)
  }

  /** Both filter conditions hold for s. */
  predicate Passes(s: TimeSlot, f: Filters) {
    && ColorMatches(s, f.color)
    && (f.date == "" || (s.start_time.Str? && StartsWith(s.start_time.s, f.date)))
  }

  /** The date condition calls `startsWith` on every slot, whatever its
      colour, as soon as a date filter is set; on a start_time that is not a
      string the call throws. */
  predicate FilterThrows(s: TimeSlot, f: Filters) {
    f.date != "" && !s.start_time.Str?
  }

  /** Some slot makes the date check throw. */
  predicate AnyThrows(slots: seq<TimeSlot>, f: Filters) {
    exists i :: 0 <= i < |slots| && FilterThrows(slots[i], f)
  }

  /** kept holds each slot that passes as often as slots does, and no other. */
  ghost predicate KeepsPassing(slots: seq<TimeSlot>, f: Filters, kept: seq<TimeSlot>) {
    forall x :: multiset(kept)[x] == if Passes(x, f) then multiset(slots)[x] else 0
  }

  /** `timeSlots.filter(...)`: the slots that pass, in their original order. */
  function Filter(slots: seq<TimeSlot>, f: Filters): (r: Result<seq<TimeSlot>, JsError>)
    ensures r.Err? <==> AnyThrows(slots, f)
    ensures r.Ok? ==> KeepsPassing(slots, f, r.value)
  {
    if slots == [] then Ok([])
    else if FilterThrows(slots[0], f) then Err(TypeError)
    else
      assert slots == [slots[0]] + slots[1..];
      match Filter(slots[1..], f)
      case Err(e) => Err(e)
      case Ok(rest) => Ok(if Passes(slots[0], f) then [slots[0]] + rest else rest)
  }

  /** The filter keeps exactly the slots that pass. */
  lemma FilterKeeps(slots: seq<TimeSlot>, f: Filters, x: TimeSlot)
    requires Filter(slots, f).Ok?
    ensures x in Filter(slots, f).value <==> x in slots && Passes(x, f)
  {
    var kept := Filter(slots, f).value;
    assert x in kept <==> multiset(kept)[x] > 0;
    assert x in slots <==> multiset(slots)[x] > 0;
  }

  /** When every slot passes, the filter returns the collection unchanged,
      in its order. */
  lemma {:induction false} FilterAllPass(slots: seq<TimeSlot>, f: Filters)
    requires forall i :: 0 <= i < |slots| ==> Passes(slots[i], f) && !FilterThrows(slots[i], f)
    ensures Filter(slots, f) == Ok(slots)
  {
    if slots != [] {
      FilterAllPass(slots[1..], f);
      assert slots == [slots[0]] + slots[1..];
    }
  }

  /** A filter that does not throw has not thrown at its first slot. */
  lemma FilterHeadDoesNotThrow(s: seq<TimeSlot>, f: Filters)
    requires s != [] && Filter(s, f).Ok?
    ensures !FilterThrows(s[0], f) && Filter(s[1..], f).Ok?
    ensures Filter(s, f).value ==
      if Passes(s[0], f) then [s[0]] + Filter(s[1..], f).value else Filter(s[1..], f).value
  {
  }

  /** Reference definition: the passing slots, in store order. */
  function Kept(slots: seq<TimeSlot>, f: Filters): seq<TimeSlot> {
    if slots == [] then []
    else (if Passes(slots[0], f) then [slots[0]] else []) + Kept(slots[1..], f)
  }

  lemma {:induction false} KeptAppend(a: seq<TimeSlot>, b: seq<TimeSlot>, f: Filters)
    ensures Kept(a + b, f) == Kept(a, f) + Kept(b, f)
  {
    if a == [] {
      assert a + b == b;
    } else {
      assert (a + b)[0] == a[0] && (a + b)[1..] == a[1..] + b;
      KeptAppend(a[1..], b, f);
    }
  }

  /** When the filter does not throw, it returns the passing slots in store order. */
  lemma {:induction false} FilterIsKept(slots: seq<TimeSlot>, f: Filters)
    requires Filter(slots, f).Ok?
    ensures Filter(slots, f).value == Kept(slots, f)
  {
    if slots != [] {
      FilterHeadDoesNotThrow(slots, f);
      FilterIsKept(slots[1..], f);
    }
  }

  /** No slot of a concatenation throws exactly when no slot of either part does. */
  lemma AnyThrowsAppend(a: seq<TimeSlot>, b: seq<TimeSlot>, f: Filters)
    ensures AnyThrows(a + b, f) <==> AnyThrows(a, f) || AnyThrows(b, f)
  {
    forall i | 0 <= i < |a|
      ensures (a + b)[i] == a[i]
    {
    }
    forall i | 0 <= i < |b|
      ensures (a + b)[|a| + i] == b[i]
    {
    }
    if AnyThrows(a + b, f) {
      var i :| 0 <= i < |a + b| && FilterThrows((a + b)[i], f);
      if i >= |a| {
        assert FilterThrows(b[i - |a|], f);
      }
    }
  }

  /** The filter of a concatenation is the concatenation of the filters:
      kept slots stay in store order. */
  lemma FilterAppend(a: seq<TimeSlot>, b: seq<TimeSlot>, f: Filters)
    requires Filter(a + b, f).Ok?
    ensures Filter(a, f).Ok? && Filter(b, f).Ok?
    ensures Filter(a + b, f).value == Filter(a, f).value + Filter(b, f).value
  {
    AnyThrowsAppend(a, b, f);
    FilterIsKept(a + b, f);
    FilterIsKept(a, f);
    FilterIsKept(b, f);
    KeptAppend(a, b, f);
  }

  /** One slot is kept exactly when it passes. */
  lemma FilterOne(s: TimeSlot, f: Filters)
    requires !FilterThrows(s, f)
    ensures Filter([s], f) == Ok(if Passes(s, f) then [s] else [])
  {
    assert [s][1..] == [];
    assert [s] + [] == [s];
  }
}
