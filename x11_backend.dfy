/** The X11 backend, whose code is not part of this model: an object that records
    each call it receives. Whether it can be constructed (a display server to
    connect to) is a property of the host Environment. */
module X11Backend {
  import opened Outcomes
  import opened Platform

  datatype CaptureCall = StartCall | CancelCall | SuppressCall(keys: seq<string>)

  datatype OutputCall =
    | SendBackspacesCall(count: int)
    | SendStringCall(text: string)
    | SendKeyCombinationCall(combo: string)

  class KeyboardCapture {
    var calls: seq<CaptureCall>

    constructor ()
      ensures calls == []
    {
      calls := [];
    }

    static method Create(env: Environment) returns (r: Result<KeyboardCapture>)
      modifies env
      ensures env.attempted == old(env.attempted) + [X11Kind]
      ensures r.Failure? <==> !env.displayAvailable
      ensures r.Failure? ==> r.error == DisplayConnectionFailed
      ensures r.Success? ==> fresh(r.value) && r.value.calls == []
    {
      env.Attempt(X11Kind);
      if !env.displayAvailable {
        return Failure(DisplayConnectionFailed);
      }
      var capture := new KeyboardCapture();
      return Success(capture);
    }

    method Start()
      modifies this
      ensures calls == old(calls) + [StartCall]
    {
      calls := calls + [StartCall];
    }

    method Cancel()
      modifies this
      ensures calls == old(calls) + [CancelCall]
    {
      calls := calls + [CancelCall];
    }

    method Suppress(keys: seq<string> := [])
      modifies this
      ensures calls == old(calls) + [SuppressCall(keys)]
    {
      calls := calls + [SuppressCall(keys)];
    }
  }

  class KeyboardEmulation {
    var calls: seq<OutputCall>

    constructor ()
      ensures calls == []
    {
      calls := [];
    }

    static method Create(env: Environment) returns (r: Result<KeyboardEmulation>)
      modifies env
      ensures env.attempted == old(env.attempted) + [X11Kind]
      ensures r.Failure? <==> !env.displayAvailable
      ensures r.Failure? ==> r.error == DisplayConnectionFailed
      ensures r.Success? ==> fresh(r.value) && r.value.calls == []
    {
      env.Attempt(X11Kind);
      if !env.displayAvailable {
        return Failure(DisplayConnectionFailed);
      }
      var emulation := new KeyboardEmulation();
      return Success(emulation);
    }

    method SendBackspaces(count: int)
      modifies this
      ensures calls == old(calls) + [SendBackspacesCall(count)]
    {
      calls := calls + [SendBackspacesCall(count)];
    }

    method SendString(text: string)
      modifies this
      ensures calls == old(calls) + [SendStringCall(text)]
    {
      calls := calls + [SendStringCall(text)];
    }

    method SendKeyCombination(combo: string)
      modifies this
      ensures calls == old(calls) + [SendKeyCombinationCall(combo)]
    {
      calls := calls + [SendKeyCombinationCall(combo)];
    }
  }
}
