/** The record normaliser of `fetchTimeSlots` and the message-to-update
    mapping of the live-update handler. Both resolve alias field names with
    JavaScript's `||`, so a falsy value (0, "", false, null) under the
    preferred name counts as absent. */
module Normalizer {
  import opened JsValues
  import opened TimeSlotTypes

  /** Reads the capacity aliases and applies the defaults 0 and 50. Reading a
      property of a null or undefined capacity throws; a property of any other
      scalar reads as undefined. */
  function NormalizeCapacity(c: RawCapacity): (r: Result<Capacity, JsError>)
    ensures r.Err? <==> c.CapacityScalar? && Nullish(c.value)
    ensures r.Ok? && c.CapacityScalar? ==> r.value == Capacity(Num(0), Num(50))
    ensures r.Ok? && c.CapacityObject? ==>
      && r.value.current_capacity ==
           (if Truthy(c.current_capacity) then c.current_capacity
            else if Truthy(c.current) then c.current
            else Num(0))
      && r.value.max_capacity ==
           (if Truthy(c.max_capacity) then c.max_capacity
            else if Truthy(c.maximum) then c.maximum
            else Num(50))
  {
    match c
    case CapacityScalar(v) =>
      // every property of a non-null scalar reads as undefined, so both defaults apply
      if Nullish(v) then Err(TypeError) else Ok(Capacity(Num(0), Num(50)))
    case CapacityObject(current_capacity, current, max_capacity, maximum) =>
      Ok(Capacity(Or(Or(current_capacity, current), Num(0)),
                  Or(Or(max_capacity, maximum), Num(50))))
  }

  /** The canonical record for one server record. A scalar in place of the
      record, or a null/undefined capacity, makes the property reads throw. */
  function Normalize(raw: RawSlot): (r: Result<TimeSlot, JsError>)
    ensures r.Ok? <==> raw.SlotObject? && NormalizeCapacity(raw.capacity).Ok?
    ensures r.Ok? ==>
      && r.value.id == raw.id
      && r.value.category == raw.category
      && r.value.start_time == (if Truthy(raw.start_time) then raw.start_time else raw.startTime)
      && r.value.end_time == (if Truthy(raw.end_time) then raw.end_time else raw.endTime)
      && Ok(r.value.capacity) == NormalizeCapacity(raw.capacity)
  {
    match raw
    case SlotScalar(_) => Err(TypeError)
    case SlotObject(id, start_time, startTime, end_time, endTime, category, capacity) =>
      match NormalizeCapacity(capacity)
      case Err(e) => Err(e)
      case Ok(cap) => Ok(TimeSlot(id, Or(start_time, startTime), Or(end_time, endTime), category, cap))
  }

  /** `response.map(normalize)`: every record normalised, in order, or the
      index of the first record whose normalisation throws. */
  function NormalizeAll(rs: seq<RawSlot>): (r: Result<seq<TimeSlot>, nat>)
    ensures r.Ok? <==> forall i :: 0 <= i < |rs| ==> Normalize(rs[i]).Ok?
    ensures r.Ok? ==> |r.value| == |rs| && forall i :: 0 <= i < |rs| ==> Normalize(rs[i]) == Ok(r.value[i])
    ensures r.Err? ==>
      && r.error < |rs|
      && Normalize(rs[r.error]).Err?
      && forall j :: 0 <= j < r.error ==> Normalize(rs[j]).Ok?
  {
    if rs == [] then Ok([])
    else
      match Normalize(rs[0])
      case Err(_) => Err(0)
      case Ok(t) =>
        match NormalizeAll(rs[1..])
        case Err(i) => Err(i + 1)
        case Ok(ts) => Ok([t] + ts)
  }

  /** One live-update message as an update: `currentCapacity` is preferred to
      `current_capacity` when truthy; id and category are copied. A null
      message makes the property reads throw. */
  function UpdateFromMessage(msg: RawMessage): (r: Result<UpdatedSlot, JsError>)
    ensures r.Err? <==> msg.MessageScalar? && Nullish(msg.value)
    ensures r.Ok? && msg.MessageScalar? ==> r.value == UpdatedSlot(Undef, Undef, Undef)
    ensures r.Ok? && msg.MessageObject? ==>
      && r.value.id == msg.id
      && r.value.category == msg.category
      && r.value.currentCapacity ==
           (if Truthy(msg.currentCapacity) then msg.currentCapacity else msg.current_capacity)
  {
    match msg
    case MessageScalar(v) =>
      // every property of a non-null scalar reads as undefined
      if Nullish(v) then Err(TypeError) else Ok(UpdatedSlot(Undef, Undef, Undef))
    case MessageObject(id, currentCapacity, current_capacity, category) =>
      Ok(UpdatedSlot(id, Or(currentCapacity, current_capacity), category))
  }

  // ---- properties of the normaliser ----

  /** The maximum capacity is never falsy: a falsy alias gives way to 50. */
  lemma MaxCapacityAlwaysTruthy(raw: RawSlot)
    requires Normalize(raw).Ok?
    ensures Truthy(Normalize(raw).value.capacity.max_capacity)
  {
  }

  /** The current capacity is either truthy or the default 0. */
  lemma CurrentCapacityTruthyOrZero(raw: RawSlot)
    requires Normalize(raw).Ok?
    ensures var c := Normalize(raw).value.capacity.current_capacity;
      Truthy(c) || c == Num(0)
  {
  }

  /** A server record that uses only the alternative names yields their values. */
  lemma AliasesOnly(id: RawValue, startTime: RawValue, endTime: RawValue, category: RawValue,
                    current: RawValue, maximum: RawValue)
    requires Truthy(current) && Truthy(maximum)
    ensures Normalize(SlotObject(id, Undef, startTime, Undef, endTime, category,
                                 CapacityObject(Undef, current, Undef, maximum)))
         == Ok(TimeSlot(id, startTime, endTime, category, Capacity(current, maximum)))
  {
  }

  /** A record whose capacity carries none of the names, or is a non-null
      scalar, gets current 0 and maximum 50. */
  lemma CapacityDefaults(raw: RawSlot)
    requires raw.SlotObject?
    requires raw.capacity == CapacityObject(Undef, Undef, Undef, Undef)
          || (raw.capacity.CapacityScalar? && !Nullish(raw.capacity.value))
    ensures Normalize(raw).Ok?
    ensures Normalize(raw).value.capacity == Capacity(Num(0), Num(50))
  {
  }

  /** A legitimate 0 under `current_capacity` or `max_capacity`, or an empty
      `start_time`, counts as absent: the alias, or else the default, wins. */
  lemma FalsyValuesFallThrough(id: RawValue, startTime: RawValue, current: RawValue, maximum: RawValue)
    ensures var r := Normalize(SlotObject(id, Str(""), startTime, Undef, Undef, Str("green"),
                                          CapacityObject(Num(0), current, Num(0), maximum)));
      && r.Ok?
      && r.value.start_time == startTime
      && r.value.capacity.current_capacity == (if Truthy(current) then current else Num(0))
      && r.value.capacity.max_capacity == (if Truthy(maximum) then maximum else Num(50))
  {
  }

  /** The canonical record written back under the canonical names only. */
  function AsRaw(t: TimeSlot): RawSlot {
    SlotObject(t.id, t.start_time, Undef, t.end_time, Undef, t.category,
               CapacityObject(t.capacity.current_capacity, Undef, t.capacity.max_capacity, Undef))
  }

  /** Normalising is idempotent on its own output, as long as the timestamps
      it produced are truthy or undefined (an empty string or 0 would turn
      into undefined on the second pass). */
  lemma NormalizeIdempotent(raw: RawSlot)
    requires Normalize(raw).Ok?
    requires var t := Normalize(raw).value;
      (Truthy(t.start_time) || t.start_time == Undef) && (Truthy(t.end_time) || t.end_time == Undef)
    ensures Normalize(AsRaw(Normalize(raw).value)) == Normalize(raw)
  {
  }

  /** A capacity update of 0 under `currentCapacity` without the other name
      becomes an update to undefined, not to 0. */
  lemma ZeroUpdateBecomesUndefined(id: RawValue, category: RawValue)
    ensures UpdateFromMessage(MessageObject(id, Num(0), Undef, category))
         == Ok(UpdatedSlot(id, Undef, category))
  {
  }
}
