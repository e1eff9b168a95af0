/** Model of the joystick slot bookkeeping of `Zeni::Joysticks`
    (jni/external/zenilib/zeni_core/Joysticks.cpp).

    The subsystem keeps an array of `Joystick_Info` records, one per
    joystick it has opened. Slots are never removed while the subsystem
    runs: a joystick that is unplugged stays in its slot, detached, until
    `poll` finds a new device to put there. The SDL handles behind an
    entry are abstracted to what the bookkeeping reads from them: the
    joystick's instance id, whether it is still attached, and the id of
    its haptic effect. */
module Joysticks {
  import opened Results

  /** One `Joystick_Info`. `large` and `small` are the rumble magnitudes of
      its left/right haptic effect, already scaled to `Uint16`. */
  datatype Entry = Entry(instanceId: int, attached: bool, hapticEffectId: int, large: nat, small: nat)

  /** What `poll` learns about the device at one SDL index once it has
      opened it: its instance id, whether SDL reports it attached, and the
      id `SDL_HapticNewEffect` returns when the device is haptic and
      supports the left/right effect (`None` when it is not or does not). */
  datatype Device = Device(instanceId: int, attached: bool, effect: Option<int>)

  datatype JoystickError = OutOfRange | InitFailure

  /** The ids of the entries, in slot order. */
  predicate HasId(js: seq<Entry>, id: int) {
    exists i :: 0 <= i < |js| && js[i].instanceId == id
  }

  /** No two slots hold the same instance id. */
  predicate DistinctIds(js: seq<Entry>) {
    forall i, j :: 0 <= i < j < |js| ==> js[i].instanceId != js[j].instanceId
  }

  // ---------------------------------------------------------------------
  // Queries.

  /** `Joystick_Info`'s constructor, once the joystick handle is stored:
      no haptic effect (id -1) and a zeroed effect. */
  function JoystickInfo(instanceId: int, attached: bool): (e: Entry)
    ensures e.hapticEffectId == -1
    ensures e.large == 0 && e.small == 0
    ensures e.instanceId == instanceId && e.attached == attached
  {
    Entry(instanceId, attached, -1, 0, 0)
  }

  /** The entry `poll` builds for a device it opened: a fresh
      `Joystick_Info` whose effect id is set only when the haptic set-up
      produced one. */
  function NewEntry(d: Device): (e: Entry)
    ensures e.instanceId == d.instanceId && e.attached == d.attached
    ensures e.large == 0 && e.small == 0
    ensures e.hapticEffectId == (if d.effect.Some? then d.effect.value else -1)
  {
    var info := JoystickInfo(d.instanceId, d.attached);
    if d.effect.Some? then info.(hapticEffectId := d.effect.value) else info
  }

  /** The reference meaning of `get_joystick_index`: the smallest slot
      holding `id`, or -1. */
  function IndexOf(js: seq<Entry>, id: int): (i: int)
    ensures -1 <= i < |js|
    ensures i == -1 <==> !HasId(js, id)
    ensures i >= 0 ==> js[i].instanceId == id && forall k :: 0 <= k < i ==> js[k].instanceId != id
  {
    if |js| == 0 then -1
    else if js[0].instanceId == id then 0
    else
      var rest := IndexOf(js[1..], id);
      assert forall k :: 1 <= k < |js| ==> js[k] == js[1..][k - 1];
      if rest == -1 then -1 else rest + 1
  }

  /** `get_joystick_index`: the linear search the source runs. */
  method GetJoystickIndex(js: seq<Entry>, id: int) returns (index: int)
    ensures index == IndexOf(js, id)
    ensures index == -1 <==> !HasId(js, id)
  {
    var i := 0;
    while i != |js|
      invariant 0 <= i <= |js|
      invariant forall k :: 0 <= k < i ==> js[k].instanceId != id
    {
      if js[i].instanceId == id {
        return i;
      }
      i := i + 1;
    }
    return -1;
  }

  /** `get_num_joysticks`. */
  function GetNumJoysticks(js: seq<Entry>): (n: nat)
    ensures n == |js|
  {
    |js|
  }

  /** `get_joystick_id`: `at` throws `out_of_range` for a slot that does
      not exist (a negative `Sint32` converts to a huge `size_t`). */
  function GetJoystickId(js: seq<Entry>, index: int): (r: Result<int, JoystickError>)
    ensures r.Failure? <==> !(0 <= index < |js|)
    ensures r.Failure? ==> r.error == OutOfRange
    ensures r.Success? ==> r.value == js[index].instanceId
  {
    if 0 <= index < |js| then Success(js[index].instanceId) else Failure(OutOfRange)
  }

  /** `is_joystick_connected`: the slot is read unchecked, so it must exist. */
  function IsJoystickConnected(js: seq<Entry>, index: int): (connected: bool)
    requires 0 <= index < |js|
    ensures connected <==> js[index].attached
  {
    js[index].attached
  }

  /** Looking up the id of a slot and then the index of that id lands on
      the same slot, provided the ids are distinct; without that it lands
      on the first slot sharing the id. */
  lemma {:induction false} IdIndexRoundTrip(js: seq<Entry>, index: int)
    requires 0 <= index < |js|
    ensures GetJoystickId(js, index).Success?
    ensures 0 <= IndexOf(js, GetJoystickId(js, index).value) <= index
    ensures DistinctIds(js) ==> IndexOf(js, GetJoystickId(js, index).value) == index
  {
    var id := js[index].instanceId;
    assert HasId(js, id);
  }

  // ---------------------------------------------------------------------
  // Slot selection in `poll`.

  /** Where `poll` puts a device: nowhere if its id already has a slot,
      else over a detached slot, else at the end. */
  datatype Slot = Present(index: nat) | Reuse(index: nat) | Append

  /** The last detached slot, or -1. */
  function LastDetached(js: seq<Entry>): (i: int)
    ensures -1 <= i < |js|
    ensures i >= 0 ==> !js[i].attached
    ensures forall k :: i < k < |js| ==> js[k].attached
  {
    if |js| == 0 then -1
    else if !js[|js| - 1].attached then |js| - 1
    else LastDetached(js[..|js| - 1])
  }

  /** The slot choice, stated directly. */
  function ChooseSlot(js: seq<Entry>, id: int): Slot {
    var present := IndexOf(js, id);
    if present >= 0 then Present(present)
    else
      var detached := LastDetached(js);
      if detached >= 0 then Reuse(detached) else Append
  }

  /** The scan `poll` runs over the array: remember every detached slot,
      stop at the first slot with the device's id. Returns the iterator
      `found` as an index, `|js|` standing for `end()`. */
  method ScanForSlot(js: seq<Entry>, id: int) returns (found: int)
    ensures 0 <= found <= |js|
    ensures ChooseSlot(js, id) == (if found == |js| then Append
                                   else if js[found].instanceId == id then Present(found)
                                   else Reuse(found))
  {
    found := |js|;
    var i := 0;
    while i != |js|
      invariant 0 <= i <= |js|
      invariant forall k :: 0 <= k < i ==> js[k].instanceId != id
      invariant 0 <= found <= |js|
      invariant found == |js| || (found < i && !js[found].attached)
      invariant found == |js| ==> forall k :: 0 <= k < i ==> js[k].attached
      invariant found < |js| ==> forall k :: found < k < i ==> js[k].attached
    {
      if js[i].instanceId == id {
        found := i;
        break;
      } else if !js[i].attached {
        found := i;
      }
      i := i + 1;
    }
    if found < |js| && js[found].instanceId != id {
      LastDetachedIsLast(js, found);
    } else if found == |js| {
      LastDetachedNone(js);
    }
  }

  lemma {:induction false} LastDetachedIsLast(js: seq<Entry>, i: int)
    requires 0 <= i < |js| && !js[i].attached
    requires forall k :: i < k < |js| ==> js[k].attached
    ensures LastDetached(js) == i
  {
    if i != |js| - 1 {
      assert js[..|js| - 1][i] == js[i];
      LastDetachedIsLast(js[..|js| - 1], i);
    }
  }

  lemma {:induction false} LastDetachedNone(js: seq<Entry>)
    requires forall k :: 0 <= k < |js| ==> js[k].attached
    ensures LastDetached(js) == -1
  {
    if |js| > 0 {
      LastDetachedNone(js[..|js| - 1]);
    }
  }

  /** The array after `poll` has dealt with one opened device. */
  function PollDevice(js: seq<Entry>, d: Device): (r: seq<Entry>)
    ensures HasId(js, d.instanceId) ==> r == js
    ensures !HasId(js, d.instanceId) && LastDetached(js) >= 0 ==>
      r == js[LastDetached(js) := NewEntry(d)]
    ensures !HasId(js, d.instanceId) && LastDetached(js) == -1 ==>
      r == js + [NewEntry(d)]
  {
    match ChooseSlot(js, d.instanceId)
    case Present(_) => js
    case Reuse(i) => js[i := NewEntry(d)]
    case Append => js + [NewEntry(d)]
  }

  /** What one device does to the array: the device's id has a slot
      afterwards, the array grows by at most one slot, and only a detached
      slot is ever overwritten. */
  lemma {:induction false} PollDeviceFrame(js: seq<Entry>, d: Device)
    ensures var r := PollDevice(js, d);
      && HasId(r, d.instanceId)
      && (|r| == |js| || |r| == |js| + 1)
      && (|r| == |js| + 1 <==> !HasId(js, d.instanceId) && forall k :: 0 <= k < |js| ==> js[k].attached)
      && forall k :: 0 <= k < |js| ==> r[k] == js[k] || !js[k].attached
    ensures DistinctIds(js) ==> DistinctIds(PollDevice(js, d))
  {
    var r := PollDevice(js, d);
    if !HasId(js, d.instanceId) {
      var i := LastDetached(js);
      if i >= 0 {
        assert r[i].instanceId == d.instanceId;
      } else {
        assert r[|js|].instanceId == d.instanceId;
        forall k | 0 <= k < |js|
          ensures js[k].attached
        {
          if !js[k].attached {
            LastDetachedFindsAny(js, k);
          }
        }
      }
    } else {
      if LastDetached(js) >= 0 {
        assert !js[LastDetached(js)].attached;
      }
    }
  }

  /** A detached slot anywhere means `LastDetached` finds one. */
  lemma {:induction false} LastDetachedFindsAny(js: seq<Entry>, k: int)
    requires 0 <= k < |js| && !js[k].attached
    ensures LastDetached(js) >= k
  {
    if k != |js| - 1 && js[|js| - 1].attached {
      assert js[..|js| - 1][k] == js[k];
      LastDetachedFindsAny(js[..|js| - 1], k);
    }
  }

  /** Every device SDL reports opened. */
  predicate AllOpen(devices: seq<Option<Device>>) {
    forall i :: 0 <= i < |devices| ==> devices[i].Some?
  }

  /** How `poll` ended: the array it left, and whether it threw. */
  datatype Polled = Polled(joysticks: seq<Entry>, thrown: Option<JoystickError>)

  /** `poll`: the devices SDL reports, in SDL index order; `None` is a
      device that failed to open, upon which the subsystem is shut down
      (the array emptied) and `Joystick_Init_Failure` is thrown. */
  function Poll(js: seq<Entry>, devices: seq<Option<Device>>): (r: Polled)
    ensures r.thrown.None? <==> AllOpen(devices)
    ensures r.thrown.Some? ==> r.joysticks == [] && r.thrown.value == InitFailure
    ensures |r.joysticks| <= |js| + |devices|
    decreases |devices|
  {
    if |devices| == 0 then Polled(js, None)
    else
      var rest := devices[1..];
      assert forall k :: 1 <= k < |devices| ==> devices[k] == rest[k - 1];
      match devices[0]
      case None => Polled([], Some(InitFailure))
      case Some(d) =>
        PollDeviceFrame(js, d);
        Poll(PollDevice(js, d), rest)
  }

  /** A successful `poll` never disturbs a slot that was attached when it
      began, and never shrinks the array. */
  lemma {:induction false} PollKeepsAttached(js: seq<Entry>, devices: seq<Option<Device>>)
    requires AllOpen(devices)
    ensures |Poll(js, devices).joysticks| >= |js|
    ensures forall k :: 0 <= k < |js| && js[k].attached ==> Poll(js, devices).joysticks[k] == js[k]
    decreases |devices|
  {
    if |devices| > 0 {
      var d := devices[0].value;
      var next := PollDevice(js, d);
      var rest := devices[1..];
      assert forall i :: 0 <= i < |rest| ==> rest[i] == devices[i + 1];
      PollDeviceFrame(js, d);
      PollKeepsAttached(next, rest);
    }
  }

  /** A `poll` over devices that all open keeps slot ids distinct. */
  lemma {:induction false} PollKeepsIdsDistinct(js: seq<Entry>, devices: seq<Option<Device>>)
    requires DistinctIds(js)
    ensures DistinctIds(Poll(js, devices).joysticks)
    decreases |devices|
  {
    if |devices| > 0 && devices[0].Some? {
      var d := devices[0].value;
      PollDeviceFrame(js, d);
      PollKeepsIdsDistinct(PollDevice(js, d), devices[1..]);
    }
  }

  /** Every device SDL reports opened and attached. */
  predicate AllAttached(devices: seq<Option<Device>>) {
    forall i :: 0 <= i < |devices| ==> devices[i].Some? && devices[i].value.attached
  }

  /** No detached slot carries the id of a device being polled: SDL never
      hands a newly opened joystick the instance id of an unplugged one. */
  predicate NoStaleIds(js: seq<Entry>, devices: seq<Option<Device>>)
    requires AllOpen(devices)
  {
    forall k, i :: 0 <= k < |js| && 0 <= i < |devices| && !js[k].attached ==>
      js[k].instanceId != devices[i].value.instanceId
  }

  /** An attached device whose id no detached slot carries ends up in an
      attached slot of its own id. */
  lemma PollDeviceLandsAttached(js: seq<Entry>, d: Device)
    requires d.attached
    requires forall k :: 0 <= k < |js| && !js[k].attached ==> js[k].instanceId != d.instanceId
    ensures IndexOf(PollDevice(js, d), d.instanceId) >= 0
    ensures PollDevice(js, d)[IndexOf(PollDevice(js, d), d.instanceId)].attached
  {
    PollDeviceFrame(js, d);
  }

  /** Dealing with the first device keeps the freshness of the others:
      the only slot it writes holds an attached entry. */
  lemma NoStaleIdsStep(js: seq<Entry>, devices: seq<Option<Device>>)
    requires AllAttached(devices) && |devices| > 0
    requires NoStaleIds(js, devices)
    ensures AllAttached(devices[1..])
    ensures NoStaleIds(PollDevice(js, devices[0].value), devices[1..])
  {
    var next := PollDevice(js, devices[0].value);
    var rest := devices[1..];
    assert forall i :: 0 <= i < |rest| ==> rest[i] == devices[i + 1];
    PollDeviceFrame(js, devices[0].value);
    forall k, i | 0 <= k < |next| && 0 <= i < |rest| && !next[k].attached
      ensures next[k].instanceId != rest[i].value.instanceId
    {
      assert k < |js| && next[k] == js[k];
    }
  }

  /** After a `poll` of attached devices, every one of them has a slot:
      each either finds its id in an attached slot or takes a slot of its
      own, and later devices only overwrite detached slots. */
  lemma {:induction false} PollRecordsDevices(js: seq<Entry>, devices: seq<Option<Device>>)
    requires AllAttached(devices)
    requires NoStaleIds(js, devices)
    ensures forall i :: 0 <= i < |devices| ==> HasId(Poll(js, devices).joysticks, devices[i].value.instanceId)
    decreases |devices|
  {
    if |devices| > 0 {
      var d := devices[0].value;
      var next := PollDevice(js, d);
      var rest := devices[1..];
      assert Poll(js, devices) == Poll(next, rest);
      NoStaleIdsStep(js, devices);
      PollRecordsDevices(next, rest);
      PollDeviceLandsAttached(js, d);
      PollKeepsAttached(next, rest);
      var r := Poll(next, rest).joysticks;
      forall i | 0 <= i < |devices|
        ensures HasId(r, devices[i].value.instanceId)
      {
        if i == 0 {
          var k := IndexOf(next, d.instanceId);
          assert r[k].instanceId == d.instanceId;
        } else {
          assert devices[i] == rest[i - 1];
        }
      }
    }
  }

  /** Polling the same attached devices again changes nothing. */
  lemma {:induction false} PollTwiceIsPollOnce(js: seq<Entry>, devices: seq<Option<Device>>)
    requires AllAttached(devices)
    requires NoStaleIds(js, devices)
    ensures Poll(js, devices).thrown.None?
    ensures Poll(Poll(js, devices).joysticks, devices) == Poll(js, devices)
  {
    assert AllOpen(devices);
    var once := Poll(js, devices);
    PollRecordsDevices(js, devices);
    PollOfPresentIsIdentity(once.joysticks, devices);

  }

  /** Devices whose ids all have slots leave the array as it is. */
  lemma {:induction false} PollOfPresentIsIdentity(js: seq<Entry>, devices: seq<Option<Device>>)
    requires AllOpen(devices)
    requires forall i :: 0 <= i < |devices| ==> HasId(js, devices[i].value.instanceId)
    ensures Poll(js, devices) == Polled(js, None)
    decreases |devices|
  {
    if |devices| > 0 {
      assert forall i :: 1 <= i < |devices| ==> devices[i] == devices[1..][i - 1];
      PollOfPresentIsIdentity(js, devices[1..]);
    }
  }

  // ---------------------------------------------------------------------
  // Rumble and teardown.

  /** `set_vibration`: only a slot that exists and owns a haptic effect
      takes the new magnitudes; `updated` says whether the effect was
      pushed to the device. */
  function SetVibration(js: seq<Entry>, index: nat, large: nat, small: nat): (r: (seq<Entry>, bool))
    ensures r.1 <==> index < |js| && js[index].hapticEffectId > -1
    ensures !r.1 ==> r.0 == js
    ensures r.1 ==>
      && |r.0| == |js|
      && r.0[index].large == large && r.0[index].small == small
      && r.0[index].instanceId == js[index].instanceId
      && r.0[index].attached == js[index].attached
      && r.0[index].hapticEffectId == js[index].hapticEffectId
      && forall k :: 0 <= k < |js| && k != index ==> r.0[k] == js[k]
  {
    if index < |js| && js[index].hapticEffectId > -1 then
      (js[index := js[index].(large := large, small := small)], true)
    else (js, false)
  }

  /** Rumbling never moves, adds or re-identifies a slot. */
  lemma {:induction false} SetVibrationKeepsSlots(js: seq<Entry>, index: nat, large: nat, small: nat, id: int)
    ensures IndexOf(SetVibration(js, index, large, small).0, id) == IndexOf(js, id)
  {
    var r := SetVibration(js, index, large, small).0;
    assert forall k :: 0 <= k < |js| ==> r[k].instanceId == js[k].instanceId;
    if IndexOf(js, id) >= 0 {
      assert HasId(r, id) by { assert r[IndexOf(js, id)].instanceId == id; }
    }
    if IndexOf(r, id) >= 0 {
      assert HasId(js, id) by { assert js[IndexOf(r, id)].instanceId == id; }
    }
  }

  /** `uninit`: every entry is deleted and the array cleared. */
  function Uninit(js: seq<Entry>): (r: seq<Entry>)
    ensures |r| == 0
  {
    []
  }

  /** `reinit`: `uninit` followed by `init`. `init` does not touch the
      array, but throws `Joystick_Init_Failure` when SDL's joystick
      subsystem fails to start; `initStarts` is SDL's answer. */
  function Reinit(js: seq<Entry>, initStarts: bool): (r: Polled)
    ensures r.joysticks == []
    ensures r.thrown.None? <==> initStarts
    ensures r.thrown.Some? ==> r.thrown.value == InitFailure
  {
    Polled(Uninit(js), if initStarts then None else Some(InitFailure))
  }
}
