/** The libevdev backend: output through a virtual keyboard registered with the
    kernel's uinput, and a capture side that is declared but not implemented. */
module LibevdevBackend {
  import opened Events
  import opened Outcomes
  import opened LibevdevEncoding
  import opened EncodingProperties
  import opened Platform

  const PloverDeviceName: string := "Plover output"

  /** One backspace keystroke, flushed on its own. */
  const BackspaceEvents: seq<Event> := [BackspacePress, SynReport, BackspaceRelease, SynReport]

  /** What send_backspaces(count) writes: one backspace batch per repetition. */
  function BackspaceBatches(count: int): seq<seq<Event>>
    decreases if count > 0 then count else 0
  {
    if count <= 0 then [] else BackspaceBatches(count - 1) + [BackspaceEvents]
  }

  /** There are max(count, 0) batches, each a single balanced backspace keystroke. */
  lemma {:induction false} BackspaceBatchesShape(count: int)
    ensures |BackspaceBatches(count)| == (if count > 0 then count else 0)
    ensures forall i :: 0 <= i < |BackspaceBatches(count)| ==> BackspaceBatches(count)[i] == BackspaceEvents
    ensures IsUnshiftedKeystroke(BackspaceEvents) && Balanced(BackspaceEvents)
    decreases if count > 0 then count else 0
  {
    KeystrokeReplay(Unshifted(Backspace), {});
    if count > 0 {
      BackspaceBatchesShape(count - 1);
    }
  }

  /** The uinput device libevdev creates. Only what is written to it is modelled:
      every send_events call appends its batch of events to the log `sent`. */
  class Device {
    const name: string
    var sent: seq<seq<Event>>

    constructor (name: string)
      ensures this.name == name && sent == []
    {
      this.name := name;
      sent := [];
    }

    method SendEvents(events: seq<Event>)
      modifies this
      ensures sent == old(sent) + [events]
    {
      sent := sent + [events];
    }
  }

  /** Output through the uinput device, which this object owns. */
  class KeyboardEmulation {
    const evdev: Device

    constructor (device: Device)
      ensures evdev == device
    {
      evdev := device;
    }

    /** Construction: registering the device raises when /dev/uinput cannot be
        written on the host. */
    static method Create(env: Environment) returns (r: Result<KeyboardEmulation>)
      modifies env
      ensures env.attempted == old(env.attempted) + [LibevdevKind]
      ensures r.Failure? <==> !env.uinputWritable
      ensures r.Failure? ==> r.error == DeviceCreationFailed
      ensures r.Success? ==> fresh(r.value) && fresh(r.value.evdev)
      ensures r.Success? ==> r.value.evdev.name == PloverDeviceName && r.value.evdev.sent == []
    {
      env.Attempt(LibevdevKind);
      if !env.uinputWritable {
        return Failure(DeviceCreationFailed);
      }
      var device := new Device(PloverDeviceName);
      var emulation := new KeyboardEmulation(device);
      return Success(emulation);
    }

    /** Writes one batch to the device. */
    method SendEvents(events: seq<Event>)
      modifies evdev
      ensures evdev.sent == old(evdev.sent) + [events]
    {
      evdev.SendEvents(events);
    }

    /** One batch per backspace, count of them; none when count is zero or negative. */
    method SendBackspaces(count: int)
      modifies evdev
      ensures evdev.sent == old(evdev.sent) + BackspaceBatches(count)
    {
      var i := 0;
      while i < count
        invariant 0 <= i <= (if count > 0 then count else 0)
        invariant evdev.sent == old(evdev.sent) + BackspaceBatches(i)
      {
        SendEvents(BackspaceEvents);
        i := i + 1;
      }
    }

    /** The whole string as one batch: the events of its characters in order. */
    method SendString(s: string)
      modifies evdev
      ensures evdev.sent == old(evdev.sent) + [EncodeString(s)]
    {
      SendEvents(EncodeString(s));
    }

    /** Key combinations are not implemented by this backend. */
    method SendKeyCombination(combo: string) returns (o: Outcome)
      ensures o == Fail(NotImplemented)
    {
      o := Fail(NotImplemented);
    }
  }

  /** Capture through libevdev: declared, never implemented. */
  class KeyboardCapture {
    var suppressedKeys: set<string>

    constructor ()
      ensures suppressedKeys == {}
    {
      suppressedKeys := {};
    }

    /** Construction sets up the (empty) suppressed set and then always raises. */
    static method Create(env: Environment) returns (r: Result<KeyboardCapture>)
      modifies env
      ensures env.attempted == old(env.attempted) + [LibevdevKind]
      ensures r == Failure(NotImplemented)
    {
      env.Attempt(LibevdevKind);
      var abandoned := new KeyboardCapture();
      r := Failure(NotImplemented);
    }

    method Start() returns (o: Outcome)
      ensures o == Fail(NotImplemented)
    {
      o := Fail(NotImplemented);
    }

    method Cancel() returns (o: Outcome)
      ensures o == Fail(NotImplemented)
    {
      o := Fail(NotImplemented);
    }

    method Suppress(keys: seq<string> := []) returns (o: Outcome)
      ensures o == Fail(NotImplemented)
    {
      o := Fail(NotImplemented);
    }
  }
}
