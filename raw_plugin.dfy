// RawPlugin: the capability query and the handler factory Qt calls.
module RawPlugin {
  import opened QtTypes
  import opened RawHandler

  /** The static extension allow-list of RawPlugin::capabilities */
  const Keys: set<string> := {
    "arw",
    "crw", "cr2",
    "dng",
    "nef",
    "raf",
    "kderaw",
    "dcr",
    "k25",
    "kdc",
    "mrw",
    "nrw",
    "orf",
    "raw",
    "raw2",
    "rw",
    "rw2",
    "pef",
    "srw",
    "x3f",
    "sr2",
    "srf"
  }

  /** A format the plugin claims without looking at the device */
  predicate Recognised(format: string) {
    format in Keys || format == "tif" || format == "tiff"
  }

  /** What capabilities decides before it touches the device: an answer, or
      "ask RawIOHandler::canRead" */
  datatype Plan = Answer(caps: set<Capability>) | Probe

  function CapabilitiesPlan(format: string, hasDevice: bool, readable: bool): (p: Plan)
    ensures Recognised(format) ==> p == Answer({CanRead})
    ensures format != [] && !Recognised(format) ==> p == Answer({})
    ensures p == Probe <==> format == [] && hasDevice && readable
    ensures p.Answer? ==> p.caps <= {CanRead}
    ensures p.Answer? && format == [] ==> p.caps == {}
  {
    if format in Keys || format == "tif" || format == "tiff" then Answer({CanRead})
    else if format != [] then Answer({})
    else if hasDevice && readable then Probe
    else Answer({})
  }

  /** RawPlugin::capabilities */
  method Capabilities(device: Device?, format: string) returns (caps: set<Capability>)
    modifies device
    ensures caps <= {CanRead}
    ensures Recognised(format) ==> caps == {CanRead}
    ensures format != [] && !Recognised(format) ==> caps == {}
    ensures format == [] ==> (caps == {CanRead} <==> device != null && device.readable && CanOpen(device))
    ensures CapabilitiesPlan(format, device != null, device != null && device.readable) != Probe ==>
            device != null ==> unchanged(device)
  {
    var plan := CapabilitiesPlan(format, device != null, device != null && device.readable);
    match plan {
      case Answer(c) =>
        caps := c;
      case Probe =>
        var ok := RawIOHandler.CanReadDevice(device);
        caps := if ok then {CanRead} else {};
    }
  }

  /** RawPlugin::create */
  method Create(device: Device?, format: string) returns (handler: RawIOHandler)
    ensures fresh(handler)
    ensures handler.device == device && handler.format == format
    ensures handler.Valid() && handler.Initial()
  {
    handler := new RawIOHandler();
    handler.SetDevice(device);
    handler.SetFormat(format);
  }
}
