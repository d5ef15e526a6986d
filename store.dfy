/** The time slot store: the collection and the filter fields, the snapshot
    load, the live capacity update, and the filter setter. Every operation is
    one atomic step on the store's state. */
module TimeSlotStoreModel {
  import opened JsValues
  import opened TimeSlotTypes
  import opened Normalizer
  import opened Seqs
  import opened SlotFilter

  /** What the gateway call resolves to: the parsed array, or a rejection
      (the gateway's error object is treated as opaque). */
  datatype Response = Fetched(records: seq<RawSlot>) | Rejected(reason: string)

  /** The error `fetchTimeSlots` rethrows: the gateway rejected, or
      normalising the record at `index` threw. */
  datatype FetchError = GatewayFailed(reason: string) | RecordFailed(index: nat)

  /** The collection a successful fetch installs: the normalised records,
      reversed, so the last record of the response comes first. */
  function Snapshot(response: Response): (r: Result<seq<TimeSlot>, FetchError>)
    ensures response.Rejected? ==> r == Err(GatewayFailed(response.reason))
    ensures response.Fetched? && r.Ok? ==>
      |r.value| == |response.records| &&
      forall i :: 0 <= i < |r.value| ==>
        Normalize(response.records[|response.records| - 1 - i]) == Ok(r.value[i])
    ensures response.Fetched? && r.Err? ==>
      && r.error.RecordFailed?
      && r.error.index < |response.records|
      && Normalize(response.records[r.error.index]).Err?
      && forall j :: 0 <= j < r.error.index ==> Normalize(response.records[j]).Ok?
  {
    match response
    case Rejected(reason) => Err(GatewayFailed(reason))
    case Fetched(records) =>
      match NormalizeAll(records)
      case Err(i) => Err(RecordFailed(i))
      case Ok(ts) => Ok(Reverse(ts))
  }

  /** `findIndex(slot => slot.id === id)`: the first matching position, or -1. */
  function FindIndex(slots: seq<TimeSlot>, id: RawValue): (r: int)
    ensures -1 <= r < |slots|
    ensures r == -1 <==> forall i :: 0 <= i < |slots| ==> slots[i].id != id
    ensures r >= 0 ==> slots[r].id == id && forall i :: 0 <= i < r ==> slots[i].id != id
  {
    if slots == [] then -1
    else if slots[0].id == id then 0
    else
      var r := FindIndex(slots[1..], id);
      if r == -1 then -1 else r + 1
  }

  /** The two field assignments of lines 65 to 67 on one slot. */
  function Apply(s: TimeSlot, u: UpdatedSlot): TimeSlot {
    s.(category := u.category, capacity := s.capacity.(current_capacity := u.currentCapacity))
  }

  /** The collection after `updateTimeSlot(u)`. */
  function ApplyUpdate(slots: seq<TimeSlot>, u: UpdatedSlot): (r: seq<TimeSlot>)
    ensures |r| == |slots|
    ensures forall i :: 0 <= i < |r| ==> r[i].id == slots[i].id
  {
    var i := FindIndex(slots, u.id);
    if i == -1 then slots else slots[i := Apply(slots[i], u)]
  }

  /** An update whose id matches no slot changes nothing. */
  lemma UpdateNoMatch(slots: seq<TimeSlot>, u: UpdatedSlot)
    requires forall i :: 0 <= i < |slots| ==> slots[i].id != u.id
    ensures ApplyUpdate(slots, u) == slots
  {
  }

  /** An update changes only the first slot whose id matches, and in it only
      the current capacity and the category. */
  lemma UpdateFirstMatch(slots: seq<TimeSlot>, u: UpdatedSlot, i: nat)
    requires i < |slots| && slots[i].id == u.id
    requires forall j :: 0 <= j < i ==> slots[j].id != u.id
    ensures var r := ApplyUpdate(slots, u);
      && |r| == |slots|
      && r[i].capacity.current_capacity == u.currentCapacity
      && r[i].category == u.category
      && r[i].capacity.max_capacity == slots[i].capacity.max_capacity
      && r[i].id == slots[i].id
      && r[i].start_time == slots[i].start_time
      && r[i].end_time == slots[i].end_time
      && forall j :: 0 <= j < |slots| && j != i ==> r[j] == slots[j]
  {
    assert FindIndex(slots, u.id) == i;
  }

  /** Strict equality: a string id never matches a numeric one, so such an
      update leaves a collection with numeric ids unchanged. */
  lemma StringIdNeverMatches(slots: seq<TimeSlot>, u: UpdatedSlot)
    requires u.id.Str?
    requires forall i :: 0 <= i < |slots| ==> slots[i].id.Num?
    ensures ApplyUpdate(slots, u) == slots
  {
    UpdateNoMatch(slots, u);
  }

  /** Updates keep every id in place, so ids that were unique stay unique. */
  lemma UpdateKeepsUniqueIds(slots: seq<TimeSlot>, u: UpdatedSlot)
    requires forall i, j :: 0 <= i < j < |slots| ==> slots[i].id != slots[j].id
    ensures var r := ApplyUpdate(slots, u);
      forall i, j :: 0 <= i < j < |r| ==> r[i].id != r[j].id
  {
  }

  /** `normalizedData.reverse()`: reverses the array in place. */
  method ReverseInPlace(a: array<TimeSlot>)
    modifies a
    ensures a[..] == Reverse(old(a[..]))
  {
    var lo, hi := 0, a.Length - 1;
    while lo < hi
      invariant 0 <= lo <= a.Length && hi == a.Length - 1 - lo
      invariant forall k :: 0 <= k < lo ==> a[k] == old(a[a.Length - 1 - k]) && a[a.Length - 1 - k] == old(a[k])
      invariant forall k :: lo <= k <= hi ==> a[k] == old(a[k])
    {
      a[lo], a[hi] := a[hi], a[lo];
      lo, hi := lo + 1, hi - 1;
    }
  }

  class TimeSlotStore {
    var timeSlots: seq<TimeSlot>
    var filters: Filters

    /** The initial state: no slots, no filters. */
    constructor ()
      ensures timeSlots == [] && filters == Filters("", "")
    {
      timeSlots := [];
      filters := Filters("", "");
    }

    /** `fetchTimeSlots` once the gateway has answered: on success the
        collection is replaced by the reversed normalised records; on any
        failure the state is left as it was. Filters are never touched. */
    method FetchTimeSlots(response: Response) returns (r: Result<(), FetchError>)
      modifies this
      ensures filters == old(filters)
      ensures Snapshot(response).Ok? ==> r == Ok(()) && timeSlots == Snapshot(response).value
      ensures Snapshot(response).Err? ==> r == Err(Snapshot(response).error) && timeSlots == old(timeSlots)
    {
      if response.Rejected? {
        return Err(GatewayFailed(response.reason));
      }
      var normalized := NormalizeAll(response.records);
      if normalized.Err? {
        return Err(RecordFailed(normalized.error));
      }
      var data := normalized.value;
      var a := new TimeSlot[|data|](i requires 0 <= i < |data| => data[i]);
      assert a[..] == data;
      ReverseInPlace(a);
      timeSlots := a[..];
      r := Ok(());
    }

    /** `updateTimeSlot(u)`: a linear scan for the first slot whose id is
        strictly equal to u.id, then two field assignments on that slot. */
    method UpdateTimeSlot(u: UpdatedSlot)
      modifies this
      ensures filters == old(filters)
      ensures timeSlots == ApplyUpdate(old(timeSlots), u)
    {
      var index := 0;
      while index < |timeSlots| && timeSlots[index].id != u.id
        invariant 0 <= index <= |timeSlots|
        invariant forall j :: 0 <= j < index ==> timeSlots[j].id != u.id
      {
        index := index + 1;
      }
      if index < |timeSlots| {
        assert FindIndex(timeSlots, u.id) == index;
        var slot := timeSlots[index];
        slot := slot.(capacity := slot.capacity.(current_capacity := u.currentCapacity));
        slot := slot.(category := u.category);
        timeSlots := timeSlots[index := slot];
      }
    }

    /** The live-update handler: map the parsed message to an update and
        apply it. A null message throws inside the handler before any state
        is touched, so it changes nothing. */
    method HandleMessage(msg: RawMessage)
      modifies this
      ensures filters == old(filters)
      ensures timeSlots == match UpdateFromMessage(msg)
                           case Ok(u) => ApplyUpdate(old(timeSlots), u)
                           case Err(_) => old(timeSlots)
    {
      var update := UpdateFromMessage(msg);
      if update.Ok? {
        UpdateTimeSlot(update.value);
      }
    }

    /** `applyFilters(color, date)`: both fields replaced, nothing else. */
    method ApplyFilters(color: string, date: string)
      modifies this
      ensures filters == Filters(color, date)
      ensures timeSlots == old(timeSlots)
    {
      filters := filters.(color := color);
      filters := filters.(date := date);
    }
  }
}
