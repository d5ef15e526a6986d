/** The record shapes of the store: the canonical time slot and capacity, the
    partial capacity update, and the loosely-typed records the server sends.
    Field names are the wire names. The canonical fields hold whatever the
    normaliser copied, so they are raw JSON values, as at run time. */
module TimeSlotTypes {
  import opened JsValues

  datatype Capacity = Capacity(current_capacity: RawValue, max_capacity: RawValue)

  datatype TimeSlot = TimeSlot(
    id: RawValue,
    start_time: RawValue,
    end_time: RawValue,
    category: RawValue,
    capacity: Capacity)

  /** A capacity update taken from one live-update message. */
  datatype UpdatedSlot = UpdatedSlot(id: RawValue, currentCapacity: RawValue, category: RawValue)

  /** The `capacity` field of a server record: an object with any of the four
      alias names (an absent name reads as Undef), or a scalar in its place
      (Undef when the record has no capacity at all). */
  datatype RawCapacity =
    | CapacityObject(current_capacity: RawValue, current: RawValue, max_capacity: RawValue, maximum: RawValue)
    | CapacityScalar(value: RawValue)

  /** One element of the snapshot array: an object with any of the alias
      names, or a scalar where an object was expected. */
  datatype RawSlot =
    | SlotObject(
        id: RawValue,
        start_time: RawValue,
        startTime: RawValue,
        end_time: RawValue,
        endTime: RawValue,
        category: RawValue,
        capacity: RawCapacity)
    | SlotScalar(value: RawValue)

  /** The parsed payload of one live-update message. */
  datatype RawMessage =
    | MessageObject(id: RawValue, currentCapacity: RawValue, current_capacity: RawValue, category: RawValue)
    | MessageScalar(value: RawValue)
}
