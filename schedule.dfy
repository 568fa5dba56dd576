/**
 * The watering schedule: 24 one-hour slots, each with an "on" and an "off"
 * flag, the top-of-the-hour window test, and the schedule's JSON rendering.
 */
module Schedule {
  import Decimal
  import opened Wrappers

  const Hours: nat := 24

  /** One hour's intent: turn the water on, turn it off, both, or neither. */
  datatype Slot = Slot(on: bool, off: bool)

  const Unset := Slot(false, false)

  /** The fields of the broken-down local time that the scheduler reads. */
  datatype LocalTime = LocalTime(hour: int, minute: int, second: int) {
    predicate Valid() {
      0 <= hour < Hours && 0 <= minute < 60 && 0 <= second <= 60
    }
  }

  /** Seconds elapsed since the top of the current hour: now minus the same
      time with minutes and seconds cleared. */
  function SecondsIntoHour(now: LocalTime): int {
    now.minute * 60 + now.second
  }

  /** The top-of-the-hour window: strictly more than 0 and strictly less than
      5 seconds past the hour. */
  function ItIsHour(now: LocalTime): (r: bool)
    requires now.Valid()
    ensures r <==> now.minute == 0 && 1 <= now.second <= 4
  {
    var remaining := SecondsIntoHour(now);
    remaining > 0 && remaining < 5
  }

  // ---------------------------------------------------------------------
  // JSON rendering of the schedule

  /** The part of a JSON value the schedule rendering produces. */
  datatype Json = JNumber(n: int) | JObject(fields: map<string, Json>)

  /** The JSON key of an hour: its decimal text "0" .. "23". */
  function HourKey(hour: nat): string {
    Decimal.NatToString(hour)
  }

  function FlagNumber(b: bool): int {
    if b then 1 else 0
  }

  function SlotJson(slot: Slot): Json {
    JObject(map["on" := JNumber(FlagNumber(slot.on)), "off" := JNumber(FlagNumber(slot.off))])
  }

  /** The "data" object after the first `n` hours have been written. */
  function DataFields(slots: seq<Slot>, n: nat): map<string, Json>
    requires n <= |slots|
  {
    if n == 0 then map[] else DataFields(slots, n - 1)[HourKey(n - 1) := SlotJson(slots[n - 1])]
  }

  /** The whole rendered schedule: `{"data": {"0": {"on": .., "off": ..}, ..}}`. */
  function ScheduleJson(slots: seq<Slot>): Json
    requires |slots| == Hours
  {
    JObject(map["data" := JObject(DataFields(slots, Hours))])
  }

  // Decoding: the reading of a rendered schedule, with 1 as true and 0 as false.

  function Field(j: Json, key: string): Option<Json> {
    if j.JObject? && key in j.fields then Some(j.fields[key]) else None
  }

  function DecodeFlag(j: Option<Json>): Option<bool> {
    match j
    case Some(JNumber(1)) => Some(true)
    case Some(JNumber(0)) => Some(false)
    case _ => None
  }

  function DecodeSlot(j: Option<Json>): Option<Slot> {
    match j
    case None => None
    case Some(obj) =>
      match (DecodeFlag(Field(obj, "on")), DecodeFlag(Field(obj, "off")))
      case (Some(on), Some(off)) => Some(Slot(on, off))
      case _ => None
  }

  /** Decodes hours 0 .. n-1 of a "data" object. */
  function DecodeSlots(data: Json, n: nat): Option<seq<Slot>> {
    if n == 0 then Some([])
    else
      match (DecodeSlots(data, n - 1), DecodeSlot(Field(data, HourKey(n - 1))))
      case (Some(prefix), Some(slot)) => Some(prefix + [slot])
      case _ => None
  }

  function DecodeSchedule(j: Json): Option<seq<Slot>> {
    match Field(j, "data")
    case None => None
    case Some(data) => DecodeSlots(data, Hours)
  }

  lemma SlotJsonRoundTrip(slot: Slot)
    ensures DecodeSlot(Some(SlotJson(slot))) == Some(slot)
  {
  }

  /** Hour `k` of the first `n` written hours holds its own slot: the keys of
      two different hours never collide. */
  lemma {:induction false} DataFieldsAt(slots: seq<Slot>, n: nat, k: nat)
    requires k < n <= |slots|
    ensures HourKey(k) in DataFields(slots, n)
    ensures DataFields(slots, n)[HourKey(k)] == SlotJson(slots[k])
  {
    if k < n - 1 {
      DataFieldsAt(slots, n - 1, k);
      Decimal.NatToStringInjective(k, n - 1);
    }
  }

  /** The "data" object holds exactly the keys "0" .. "n-1". */
  lemma {:induction false} DataFieldsKeys(slots: seq<Slot>, n: nat)
    requires n <= |slots|
    ensures DataFields(slots, n).Keys == set k | 0 <= k < n :: HourKey(k)
  {
    if n > 0 {
      DataFieldsKeys(slots, n - 1);
    }
  }

  lemma {:induction false} DecodeSlotsPrefix(slots: seq<Slot>, n: nat)
    requires n <= |slots| == Hours
    ensures DecodeSlots(JObject(DataFields(slots, Hours)), n) == Some(slots[..n])
  {
    if n > 0 {
      DecodeSlotsPrefix(slots, n - 1);
      DataFieldsAt(slots, Hours, n - 1);
      SlotJsonRoundTrip(slots[n - 1]);
      assert slots[..n] == slots[..n - 1] + [slots[n - 1]];
    }
  }

  /** Reading back the rendered schedule, 1 as true, recovers it exactly. */
  lemma DecodeScheduleJson(slots: seq<Slot>)
    requires |slots| == Hours
    ensures DecodeSchedule(ScheduleJson(slots)) == Some(slots)
  {
    DecodeSlotsPrefix(slots, Hours);
    assert slots[..Hours] == slots;
  }

  // ---------------------------------------------------------------------
  // The schedule object

  class WateringSchedule {
    var slots: array<Slot>

    ghost predicate Valid()
      reads this
    {
      slots.Length == Hours
    }

    /** Every hour starts with neither flag set. */
    constructor ()
      ensures Valid() && fresh(slots)
      ensures forall h :: 0 <= h < Hours ==> slots[h] == Unset
    {
      var a := new Slot[Hours];
      var i := 0;
      while i < Hours
        invariant 0 <= i <= Hours
        invariant forall h :: 0 <= h < i ==> a[h] == Unset
      {
        a[i] := Unset;
        i := i + 1;
      }
      slots := a;
    }

    /** Writes one hour's slot. The write itself does no range check on the
        hour, so an hour in range is required. */
    method Set(hour: int, on: bool, off: bool)
      requires Valid() && 0 <= hour < Hours
      modifies slots
      ensures slots[hour] == Slot(on, off)
      ensures forall h :: 0 <= h < Hours && h != hour ==> slots[h] == old(slots[h])
      ensures forall now: LocalTime :: now.Valid() && now.hour == hour ==>
        IsOnTime(now) == on && IsOffTime(now) == off
    {
      slots[hour] := Slot(on, off);
    }

    /** Does the current hour's slot ask for the water to be turned on? */
    function IsOnTime(now: LocalTime): bool
      reads this, slots
      requires Valid() && now.Valid()
    {
      slots[now.hour].on
    }

    /** Does the current hour's slot ask for the water to be turned off? */
    function IsOffTime(now: LocalTime): bool
      reads this, slots
      requires Valid() && now.Valid()
    {
      slots[now.hour].off
    }

    /** Renders every hour as `{"on": 1|0, "off": 1|0}` under its decimal key. */
    method RenderJson() returns (j: Json)
      requires Valid()
      ensures j == ScheduleJson(slots[..])
      ensures DecodeSchedule(j) == Some(slots[..])
      ensures j.fields.Keys == {"data"} && j.fields["data"].JObject?
      ensures j.fields["data"].fields.Keys == set h | 0 <= h < Hours :: HourKey(h)
    {
      var data: map<string, Json> := map[];
      for i := 0 to Hours
        invariant data == DataFields(slots[..], i)
      {
        data := data[HourKey(i) := SlotJson(slots[i])];
      }
      j := JObject(map["data" := JObject(data)]);
      DecodeScheduleJson(slots[..]);
      DataFieldsKeys(slots[..], Hours);
    }

    /** Applies a full schedule update: hour `i` receives pair `i`. */
    method Apply(pairs: seq<Slot>)
      requires Valid() && |pairs| == Hours
      modifies slots
      ensures slots[..] == pairs
    {
      for i := 0 to Hours
        invariant forall h :: 0 <= h < i ==> slots[h] == pairs[h]
      {
        Set(i, pairs[i].on, pairs[i].off);
      }
    }
  }
}
