/** The Linux keyboard facades. Each constructor tries the libevdev backend first and,
    only if that raises, constructs the X11 backend; the backend it ends up with is
    bound once, and every later call is forwarded to it unchanged. */
module KeyboardControl {
  import opened Outcomes
  import opened LibevdevEncoding
  import opened Platform
  import Evdev = LibevdevBackend
  import X11 = X11Backend

  /** The backends a constructor tries, in order, given whether the preferred
      (libevdev) one can be constructed. */
  function Attempts(preferredOk: bool): (a: seq<BackendKind>)
    ensures 1 <= |a| <= 2 && a[0] == LibevdevKind
    ensures X11Kind in a <==> !preferredOk
    ensures forall i, j :: 0 <= i < j < |a| ==> a[i] != a[j]
  {
    if preferredOk then [LibevdevKind] else [LibevdevKind, X11Kind]
  }

  /** The backend a facade is bound to, given which backends can be constructed;
      None when both raise and the facade's construction fails. */
  function Chosen(preferredOk: bool, fallbackOk: bool): (c: Option<BackendKind>)
    ensures c == Some(LibevdevKind) <==> preferredOk
    ensures c == Some(X11Kind) <==> !preferredOk && fallbackOk
    ensures c.Some? ==> c.value == Attempts(preferredOk)[|Attempts(preferredOk)| - 1]
  {
    if preferredOk then Some(LibevdevKind) else if fallbackOk then Some(X11Kind) else None
  }

  datatype CaptureDelegate =
    | EvdevCapture(libevdev: Evdev.KeyboardCapture)
    | X11Capture(x11: X11.KeyboardCapture)
  {
    function Kind(): BackendKind {
      if EvdevCapture? then LibevdevKind else X11Kind
    }
  }

  datatype EmulationDelegate =
    | EvdevEmulation(libevdev: Evdev.KeyboardEmulation)
    | X11Emulation(x11: X11.KeyboardEmulation)
  {
    function Kind(): BackendKind {
      if EvdevEmulation? then LibevdevKind else X11Kind
    }
  }

  class KeyboardCapture {
    const delegate: CaptureDelegate

    constructor (delegate: CaptureDelegate)
      ensures this.delegate == delegate
    {
      this.delegate := delegate;
    }

    /** The state the delegate's calls change. */
    function Frame(): set<object> {
      match delegate
      case EvdevCapture(_) => {}
      case X11Capture(x) => {x}
    }

    /** Construction. The libevdev capture always raises, so the facade always falls
        back to X11, and fails when X11 cannot be constructed either. Each backend
        constructor that runs records itself in env, so env.attempted shows which
        were tried, in which order, and how often. */
    static method Create(env: Environment) returns (r: Result<KeyboardCapture>)
      modifies env
      ensures env.attempted == old(env.attempted) + Attempts(false)
      ensures r.Success? <==> Chosen(false, env.displayAvailable).Some?
      ensures r.Success? ==> Some(r.value.delegate.Kind()) == Chosen(false, env.displayAvailable)
      ensures r.Success? ==> fresh(r.value) && r.value.delegate.X11Capture?
      ensures r.Success? ==> fresh(r.value.delegate.x11) && r.value.delegate.x11.calls == []
      ensures r.Failure? ==> r.error == DisplayConnectionFailed
    {
      var preferred := Evdev.KeyboardCapture.Create(env);
      if preferred.Success? {
        assert false;
      }
      var fallback := X11.KeyboardCapture.Create(env);
      match fallback
      case Failure(e) =>
        r := Failure(e);
      case Success(x) =>
        var facade := new KeyboardCapture(X11Capture(x));
        r := Success(facade);
    }

    method Start() returns (o: Outcome)
      modifies Frame()
      ensures delegate.EvdevCapture? ==> o == Fail(NotImplemented)
      ensures delegate.X11Capture? ==> o == Pass && delegate.x11.calls == old(delegate.x11.calls) + [X11.StartCall]
    {
      match delegate
      case EvdevCapture(c) =>
        o := c.Start();
      case X11Capture(x) =>
        x.Start();
        o := Pass;
    }

    method Cancel() returns (o: Outcome)
      modifies Frame()
      ensures delegate.EvdevCapture? ==> o == Fail(NotImplemented)
      ensures delegate.X11Capture? ==> o == Pass && delegate.x11.calls == old(delegate.x11.calls) + [X11.CancelCall]
    {
      match delegate
      case EvdevCapture(c) =>
        o := c.Cancel();
      case X11Capture(x) =>
        x.Cancel();
        o := Pass;
    }

    method Suppress(keys: seq<string> := []) returns (o: Outcome)
      modifies Frame()
      ensures delegate.EvdevCapture? ==> o == Fail(NotImplemented)
      ensures delegate.X11Capture? ==> o == Pass && delegate.x11.calls == old(delegate.x11.calls) + [X11.SuppressCall(keys)]
    {
      match delegate
      case EvdevCapture(c) =>
        o := c.Suppress(keys);
      case X11Capture(x) =>
        x.Suppress(keys);
        o := Pass;
    }
  }

  class KeyboardEmulation {
    const delegate: EmulationDelegate

    constructor (delegate: EmulationDelegate)
      ensures this.delegate == delegate
    {
      this.delegate := delegate;
    }

    /** The state the delegate's calls change: the uinput device, or the X11 backend. */
    function Frame(): set<object> {
      match delegate
      case EvdevEmulation(e) => {e.evdev}
      case X11Emulation(x) => {x}
    }

    /** Construction: libevdev when the uinput device can be created, otherwise X11;
        when X11 raises too, construction fails with X11's error. env.attempted
        records each backend constructor that ran, in order. */
    static method Create(env: Environment) returns (r: Result<KeyboardEmulation>)
      modifies env
      ensures env.attempted == old(env.attempted) + Attempts(env.uinputWritable)
      ensures r.Success? <==> Chosen(env.uinputWritable, env.displayAvailable).Some?
      ensures r.Success? ==> Some(r.value.delegate.Kind()) == Chosen(env.uinputWritable, env.displayAvailable)
      ensures r.Success? ==> fresh(r.value) && fresh(r.value.Frame())
      ensures r.Success? && r.value.delegate.EvdevEmulation? ==>
        fresh(r.value.delegate.libevdev) && r.value.delegate.libevdev.evdev.sent == []
      ensures r.Success? && r.value.delegate.X11Emulation? ==> r.value.delegate.x11.calls == []
      ensures r.Failure? ==> r.error == DisplayConnectionFailed
    {
      var preferred := Evdev.KeyboardEmulation.Create(env);
      match preferred
      case Success(e) =>
        var facade := new KeyboardEmulation(EvdevEmulation(e));
        r := Success(facade);
      case Failure(_) =>
        var fallback := X11.KeyboardEmulation.Create(env);
        match fallback
        case Failure(e) =>
          r := Failure(e);
        case Success(x) =>
          var facade := new KeyboardEmulation(X11Emulation(x));
          r := Success(facade);
    }

    method SendBackspaces(count: int)
      modifies Frame()
      ensures delegate.EvdevEmulation? ==>
        delegate.libevdev.evdev.sent == old(delegate.libevdev.evdev.sent) + Evdev.BackspaceBatches(count)
      ensures delegate.X11Emulation? ==>
        delegate.x11.calls == old(delegate.x11.calls) + [X11.SendBackspacesCall(count)]
    {
      match delegate
      case EvdevEmulation(e) =>
        e.SendBackspaces(count);
      case X11Emulation(x) =>
        x.SendBackspaces(count);
    }

    method SendString(text: string)
      modifies Frame()
      ensures delegate.EvdevEmulation? ==>
        delegate.libevdev.evdev.sent == old(delegate.libevdev.evdev.sent) + [EncodeString(text)]
      ensures delegate.X11Emulation? ==>
        delegate.x11.calls == old(delegate.x11.calls) + [X11.SendStringCall(text)]
    {
      match delegate
      case EvdevEmulation(e) =>
        e.SendString(text);
      case X11Emulation(x) =>
        x.SendString(text);
    }

    method SendKeyCombination(combo: string) returns (o: Outcome)
      modifies Frame()
      ensures delegate.EvdevEmulation? ==> o == Fail(NotImplemented)
      ensures delegate.X11Emulation? ==>
        o == Pass && delegate.x11.calls == old(delegate.x11.calls) + [X11.SendKeyCombinationCall(combo)]
    {
      match delegate
      case EvdevEmulation(e) =>
        o := e.SendKeyCombination(combo);
      case X11Emulation(x) =>
        x.SendKeyCombination(combo);
        o := Pass;
    }
  }
}
