/** The host the output backends are constructed on: whether the uinput device
    can be created and whether an X display can be connected to, and the record of
    every backend construction attempted on it, in order. */
module Platform {
  datatype BackendKind = LibevdevKind | X11Kind

  class Environment {
    const uinputWritable: bool
    const displayAvailable: bool
    /** One entry per backend constructor that has run, whether it raised or not. */
    var attempted: seq<BackendKind>

    constructor (uinputWritable: bool, displayAvailable: bool)
      ensures this.uinputWritable == uinputWritable && this.displayAvailable == displayAvailable
      ensures attempted == []
    {
      this.uinputWritable := uinputWritable;
      this.displayAvailable := displayAvailable;
      attempted := [];
    }

    /** A backend constructor starts running. */
    method Attempt(kind: BackendKind)
      modifies this
      ensures attempted == old(attempted) + [kind]
    {
      attempted := attempted + [kind];
    }
  }
}
