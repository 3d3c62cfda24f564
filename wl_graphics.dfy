/** A graphics device of the Wayland backend: one wl_output, identified by its id and its
    position in the multi-monitor layout, with a display name and a single active configuration. */
module WLGraphics {
  import opened JavaInt
  import opened FullScreen

  datatype Option<T> = None | Some(value: T)

  /** Width and height of a configuration's bounds. */
  datatype Size = Size(width: int32, height: int32)

  /** The identity of a device: its wl_output id and its position. */
  datatype DeviceId = DeviceId(wlID: int32, x: int32, y: int32)

  const OutputNamePrefix: string := "wl_output."

  /** The name given to an output that came without one: "wl_output." followed by its id
      in decimal, which reads back as the id. */
  function SyntheticName(wlID: int32): (s: string)
    ensures |s| > |OutputNamePrefix| && s[..|OutputNamePrefix|] == OutputNamePrefix
    ensures var digits := s[|OutputNamePrefix|..];
      |digits| >= 1 &&
      (digits[0] == '-' ==> AllDigits(digits[1..])) && (digits[0] != '-' ==> AllDigits(digits)) &&
      ParseInt(digits) == wlID as int
  {
    IntToStringRoundTrip(wlID as int);
    var s := OutputNamePrefix + IntToString(wlID as int);
    assert s[|OutputNamePrefix|..] == IntToString(wlID as int);
    s
  }

  /** Two outputs whose names were both synthesised get the same name only if their ids agree. */
  lemma SyntheticNameInjective(a: int32, b: int32)
    ensures SyntheticName(a) == SyntheticName(b) <==> a == b
  {
    // both names read back as their ids, so equal names have equal ids
  }

  /** The active mode of an output. Never changed once made: a different mode is a new object. */
  class WLGraphicsConfig {
    const width: int32
    const height: int32
    const scale: int32

    constructor (width: int32, height: int32, scale: int32)
      ensures this.width == width && this.height == height && this.scale == scale
    {
      this.width := width;
      this.height := height;
      this.scale := scale;
    }

    /** True iff this configuration is not of the given width, height and scale. */
    predicate DiffersFrom(width: int32, height: int32, scale: int32) {
      (this.width, this.height, this.scale) != (width, height, scale)
    }

    function Bounds(): Size {
      Size(width, height)
    }
  }

  class WLGraphicsDevice {
    var wlID: int32
    var name: Option<string>
    var x: int32
    var y: int32
    var config: WLGraphicsConfig?
    /** The window the device shows full-screen, null when there is none. */
    var fullScreenWindow: Window?
    /** Every request this device has sent to a window peer. */
    ghost var requests: seq<PeerRequest>

    /** A device that has been given its configuration. */
    ghost predicate Valid()
      reads this
    {
      config != null && name.Some?
    }

    function Identity(): DeviceId
      reads this
    {
      DeviceId(wlID, x, y)
    }

    ghost function FullScreenStatus(): FullScreenState
      reads this
    {
      FullScreenState(fullScreenWindow, requests)
    }

    /** A device that has an identity but no configuration yet. */
    constructor (id: int32, x: int32, y: int32)
      ensures Identity() == DeviceId(id, x, y)
      ensures name == None && config == null
      ensures FullScreenStatus() == FullScreenState(null, [])
    {
      this.wlID := id;
      this.x := x;
      this.y := y;
      this.name := None;
      this.config := null;
      this.fullScreenWindow := null;
      this.requests := [];
    }

    function GetID(): int32
      reads this
    {
      wlID
    }

    /** Sets the name and the mode. The configuration object is replaced by a new one only when
        there was none or its width, height or scale differ: its identity signals a change. */
    method UpdateConfiguration(name: Option<string>, width: int32, height: int32, scale: int32)
      modifies this
      ensures Valid()
      ensures this.name == if name.None? then Some(SyntheticName(wlID)) else name
      ensures config.width == width && config.height == height && config.scale == scale
      ensures old(config) != null && !old(config).DiffersFrom(width, height, scale) ==> config == old(config)
      ensures old(config) == null || old(config).DiffersFrom(width, height, scale) ==> fresh(config)
      ensures Identity() == old(Identity())
      ensures FullScreenStatus() == old(FullScreenStatus())
    {
      this.name := if name.None? then Some(SyntheticName(wlID)) else name;
      if config == null || config.DiffersFrom(width, height, scale) {
        config := new WLGraphicsConfig(width, height, scale);
      }
    }

    /** Makes this device take on the identity, name, size and scale of `similarDevice`,
        so that references to this device stay usable after its output was replaced. */
    method Invalidate(similarDevice: WLGraphicsDevice)
      requires similarDevice.config != null
      modifies this
      ensures Valid()
      ensures IsSameDeviceAs(old(similarDevice.wlID), old(similarDevice.x), old(similarDevice.y))
      ensures name == if old(similarDevice.name).None? then Some(SyntheticName(wlID)) else old(similarDevice.name)
      ensures config.Bounds() == old(similarDevice.config.Bounds()) && GetScale() == old(similarDevice.GetScale())
      ensures similarDevice != this ==> unchanged(similarDevice) && HasSameSizeAs(similarDevice)
      ensures old(config) != null && !old(config).DiffersFrom(config.width, config.height, config.scale) ==>
                config == old(config)
      ensures old(config) == null || old(config).DiffersFrom(config.width, config.height, config.scale) ==>
                fresh(config)
      ensures FullScreenStatus() == old(FullScreenStatus())
    {
      this.wlID := similarDevice.wlID;
      this.x := similarDevice.x;
      this.y := similarDevice.y;

      var newScale := similarDevice.config.scale;
      var newBounds := similarDevice.config.Bounds();
      UpdateConfiguration(similarDevice.name, newBounds.width, newBounds.height, newScale);
    }

    /** A device with the given identity, name and mode. */
    static method CreateWithConfiguration(id: int32, name: Option<string>, x: int32, y: int32,
                                          width: int32, height: int32, scale: int32)
      returns (device: WLGraphicsDevice)
      ensures fresh(device) && device.Valid() && fresh(device.config)
      ensures device.IsSameDeviceAs(id, x, y) && device.GetID() == id
      ensures forall i, a, b :: device.IsSameDeviceAs(i, a, b) <==> i == id && a == x && b == y
      ensures device.name == if name.None? then Some(SyntheticName(id)) else name
      ensures device.config.Bounds() == Size(width, height) && device.GetScale() == scale
      ensures device.FullScreenStatus() == FullScreenState(null, [])
    {
      device := new WLGraphicsDevice(id, x, y);
      device.UpdateConfiguration(name, width, height, scale);
    }

    /** True iff the given attributes identify this device. */
    predicate IsSameDeviceAs(wlID: int32, x: int32, y: int32)
      reads this
      ensures IsSameDeviceAs(wlID, x, y) <==> Identity() == DeviceId(wlID, x, y)
    {
      this.wlID == wlID && this.x == x && this.y == y
    }

    /** True iff both devices have a name and the names are equal; a missing name equals nothing. */
    predicate HasSameNameAs(otherDevice: WLGraphicsDevice)
      reads this, otherDevice
      ensures HasSameNameAs(otherDevice) ==> name.Some? && name == otherDevice.name
      ensures name.None? || otherDevice.name.None? ==> !HasSameNameAs(otherDevice)
      ensures name.Some? && name == otherDevice.name ==> HasSameNameAs(otherDevice)
    {
      name.Some? && otherDevice.name.Some? && name.value == otherDevice.name.value
    }

    /** Whether two devices have the same name does not depend on which one is asked. */
    lemma HasSameNameAsSymmetric(otherDevice: WLGraphicsDevice)
      ensures HasSameNameAs(otherDevice) == otherDevice.HasSameNameAs(this)
    {
    }

    /** True iff both devices have a configuration and their bounds are equal. */
    predicate HasSameSizeAs(modelDevice: WLGraphicsDevice)
      reads this, modelDevice
      ensures HasSameSizeAs(modelDevice) ==>
                config != null && modelDevice.config != null &&
                config.width == modelDevice.config.width && config.height == modelDevice.config.height
      ensures config == null || modelDevice.config == null ==> !HasSameSizeAs(modelDevice)
      ensures (config != null && modelDevice.config != null &&
               config.width == modelDevice.config.width && config.height == modelDevice.config.height) ==>
                HasSameSizeAs(modelDevice)
    {
      config != null && modelDevice.config != null && config.Bounds() == modelDevice.config.Bounds()
    }

    /** The one configuration a device advertises. */
    function GetDefaultConfiguration(): (c: WLGraphicsConfig?)
      reads this
      requires config != null
      ensures c != null
    {
      config
    }

    /** All advertised configurations: only the current mode. */
    method GetConfigurations() returns (configs: array<WLGraphicsConfig?>)
      requires config != null
      ensures fresh(configs)
      ensures configs.Length == 1 && configs[0] == GetDefaultConfiguration()
    {
      configs := new WLGraphicsConfig?[1] [config];
    }

    function GetScale(): int32
      reads this
      requires config != null
    {
      config.scale
    }

    /** Makes `w` the full-screen window. Nothing happens when `w` already is. Otherwise a non-null
        `w` has its peer asked to go full-screen on this output; a null `w` has the previous
        window's peer asked to leave full-screen. A window without a peer is sent nothing. */
    method SetFullScreenWindow(w: Window?, peerOf: map<Window, ComponentPeer>)
      modifies this`fullScreenWindow, this`requests
      ensures FullScreenStatus() == FullScreen.SetFullScreenWindow(old(FullScreenStatus()), w, wlID, peerOf)
    {
      var previous := fullScreenWindow;
      if w == previous {
        return;
      }

      fullScreenWindow := w;

      if w != null {
        EnterFullScreenExclusive(w, peerOf);
      } else {
        ExitFullScreenExclusive(previous, peerOf);
      }
    }

    method EnterFullScreenExclusive(w: Window, peerOf: map<Window, ComponentPeer>)
      modifies this`requests
      ensures requests == old(requests) + EnterRequests(w, wlID, peerOf)
    {
      if w in peerOf {
        requests := requests + [RequestFullScreen(peerOf[w], wlID)];
      }
    }

    method ExitFullScreenExclusive(w: Window, peerOf: map<Window, ComponentPeer>)
      modifies this`requests
      ensures requests == old(requests) + ExitRequests(w, peerOf)
    {
      if w in peerOf {
        requests := requests + [RequestUnsetFullScreen(peerOf[w])];
      }
    }

    /** Placeholder: the device does not keep track of its windows. */
    method AddWindow(peer: ComponentPeer)
      ensures unchanged(this)
    {
    }

    /** Placeholder: the device does not keep track of its windows. */
    method RemoveWindow(peer: ComponentPeer)
      ensures unchanged(this)
    {
    }
  }

  /** The sequence w1, null, w1, invalidate, w2, null on one device: the full-screen window
      survives invalidation, and requests sent afterwards carry the new output id. */
  method FullScreenAcrossInvalidate(w1: Window, w2: Window, p1: ComponentPeer, p2: ComponentPeer)
    returns (d: WLGraphicsDevice)
    requires w1 != w2
    ensures d.Identity() == DeviceId(9, 1920, 0) && d.name == Some(SyntheticName(9))
    ensures d.fullScreenWindow == null
    ensures d.requests == [RequestFullScreen(p1, 7), RequestUnsetFullScreen(p1), RequestFullScreen(p1, 7),
                           RequestFullScreen(p2, 9), RequestUnsetFullScreen(p2)]
  {
    d := WLGraphicsDevice.CreateWithConfiguration(7, None, 0, 0, 1920, 1080, 1);
    var peerOf := map[w1 := p1, w2 := p2];
    d.SetFullScreenWindow(w1, peerOf);
    d.SetFullScreenWindow(null, peerOf);
    d.SetFullScreenWindow(w1, peerOf);
    var successor := WLGraphicsDevice.CreateWithConfiguration(9, None, 1920, 0, 2560, 1440, 2);
    d.Invalidate(successor);
    assert d.fullScreenWindow == w1;
    d.SetFullScreenWindow(w2, peerOf);
    d.SetFullScreenWindow(null, peerOf);
  }
}
