# WLGraphicsDevice in Dafny

A model of `sun.awt.wl.WLGraphicsDevice`, the graphics device of the Wayland backend of
the JetBrains Runtime. There is one device per Wayland output (`wl_output`). A device is
identified by the output's id (`wlID`) and its position (`x`, `y`) in the multi-monitor
layout. It also has a display name that is not part of its identity, and exactly one
active configuration (width, height, scale).

The model has three modules:

- `JavaInt` (`java_int.dfy`) holds Java's 32-bit `int` as the newtype `int32`. It also holds
  the decimal rendering Java uses when it concatenates an `int` to a string. The device uses
  that rendering to build the name `"wl_output." + wlID` for an output that has no name.
  This module proves that the rendering parses back to the number, so distinct ids always
  get distinct synthesised names.
- `FullScreen` (`full_screen.dfy`) covers full-screen switching on values. A state holds the
  full-screen window and the log of requests sent to window peers. One call of
  `setFullScreenWindow` is a function from state to state. `Run` folds a sequence of calls
  over that function.
- `WLGraphics` (`wl_graphics.dfy`) holds the two classes. `WLGraphicsConfig` is an immutable
  mode object. Whether a configuration was kept or replaced is stated as "same object"
  versus `fresh`. `WLGraphicsDevice` has the fields the Java methods overwrite in place. Its
  methods `UpdateConfiguration`, `Invalidate` and `SetFullScreenWindow` have `modifies`
  clauses. The full-screen method's postcondition ties the device state to
  `FullScreen.SetFullScreenWindow`.

Java `null` is modelled as follows:

- A `String` that may be null is an `Option<string>`.
- A window that may be null is `Window?`.
- A configuration that may be null is `WLGraphicsConfig?`.

Looking up a window's peer becomes a `map<Window, ComponentPeer>` parameter. A window
outside the map has no peer. The Java code keeps no record of the requests it sends to
peers; the model records them in a ghost log, `requests`, so they can be specified.

Switching the full-screen window from one non-null window to another sends no unset
request to the old window's peer. Only the new window's peer is asked to enter full-screen
mode (WLGraphicsDevice.java:166-170). `FullScreen.SwitchScenario` shows the resulting
request log for the sequence w1, w1, w2, null.

## Model

| member | source | states |
|---|---|---|
| `JavaInt.NatToDecimal` | src/java.desktop/unix/classes/sun/awt/wl/WLGraphicsDevice.java:76 | the decimal form of a number is a non-empty string of digits with no leading zero |
| `JavaInt.IntToString` | src/java.desktop/unix/classes/sun/awt/wl/WLGraphicsDevice.java:76 | the decimal form of an `int` is a '-' exactly when it is negative, followed by a non-empty run of digits |
| `JavaInt.DecimalRoundTrip` | src/java.desktop/unix/classes/sun/awt/wl/WLGraphicsDevice.java:76 | reading the rendered digits back gives the original number |
| `JavaInt.IntToStringRoundTrip` | src/java.desktop/unix/classes/sun/awt/wl/WLGraphicsDevice.java:76 | the rendering of an `int` has a leading '-' exactly when it is negative, is otherwise all digits, and parses back to the `int` |
| `JavaInt.IntToStringInjective` | src/java.desktop/unix/classes/sun/awt/wl/WLGraphicsDevice.java:76 | two `int`s render to the same string if and only if they are equal |
| `WLGraphics.SyntheticName` | src/java.desktop/unix/classes/sun/awt/wl/WLGraphicsDevice.java:76 | the synthesised name starts with "wl_output." and the rest is a decimal numeral that reads back as the output id |
| `WLGraphics.SyntheticNameInjective` | src/java.desktop/unix/classes/sun/awt/wl/WLGraphicsDevice.java:76 | two synthesised names `"wl_output." + id` are equal if and only if the ids are equal |
| `WLGraphics.WLGraphicsConfig.constructor` | src/java.desktop/unix/classes/sun/awt/wl/WLGraphicsDevice.java:80-82 | a new configuration has exactly the requested width, height and scale |
| `WLGraphics.WLGraphicsDevice.constructor` | src/java.desktop/unix/classes/sun/awt/wl/WLGraphicsDevice.java:65-69 | a new device has the given id and position, no name, no configuration and no full-screen window |
| `WLGraphics.WLGraphicsDevice.UpdateConfiguration` | src/java.desktop/unix/classes/sun/awt/wl/WLGraphicsDevice.java:75-84 | the name becomes the given one, or "wl_output." plus the id when none is given, so a name is always present afterwards; the configuration has the requested width, height and scale; it is the same object as before when one existed with those values and a fresh object otherwise; identity and full-screen state are unchanged |
| `WLGraphics.WLGraphicsDevice.Invalidate` | src/java.desktop/unix/classes/sun/awt/wl/WLGraphicsDevice.java:91-99 | afterwards the device is the same device as the other one's id and position, has its name (or the synthesised name for that id), and has its size and scale (`GetScale`); the other device is unchanged and has the same size; the configuration object is kept when its values already matched and is fresh otherwise |
| `WLGraphics.WLGraphicsDevice.CreateWithConfiguration` | src/java.desktop/unix/classes/sun/awt/wl/WLGraphicsDevice.java:101-105 | the new device is the same device as (id, x, y) and as no other triple, and `GetID` reports id; it has the given name or the synthesised one, a fresh configuration with the given size and scale, and no full-screen window |
| `WLGraphics.WLGraphicsDevice.IsSameDeviceAs` | src/java.desktop/unix/classes/sun/awt/wl/WLGraphicsDevice.java:107-113 | true exactly when the triple equals the device's identity (id, x, y) |
| `WLGraphics.WLGraphicsDevice.HasSameNameAs` | src/java.desktop/unix/classes/sun/awt/wl/WLGraphicsDevice.java:115-117 | true exactly when both names are present and equal; a missing name on either side makes it false |
| `WLGraphics.WLGraphicsDevice.HasSameNameAsSymmetric` | src/java.desktop/unix/classes/sun/awt/wl/WLGraphicsDevice.java:115-117 | comparing names gives the same answer from either device |
| `WLGraphics.WLGraphicsDevice.HasSameSizeAs` | src/java.desktop/unix/classes/sun/awt/wl/WLGraphicsDevice.java:119-121 | true exactly when both devices have a configuration and the widths and heights agree; false when either configuration is missing |
| `WLGraphics.WLGraphicsDevice.GetDefaultConfiguration` | src/java.desktop/unix/classes/sun/awt/wl/WLGraphicsDevice.java:143-146 | a configured device always reports a configuration |
| `WLGraphics.WLGraphicsDevice.GetConfigurations` | src/java.desktop/unix/classes/sun/awt/wl/WLGraphicsDevice.java:133-141 | a new array of exactly one element, which is the default configuration |
| `WLGraphics.WLGraphicsDevice.SetFullScreenWindow` | src/java.desktop/unix/classes/sun/awt/wl/WLGraphicsDevice.java:157-172 | the full-screen window and the request log change exactly as `FullScreen.SetFullScreenWindow` says, with the device's current id as the output id |
| `WLGraphics.WLGraphicsDevice.EnterFullScreenExclusive` | src/java.desktop/unix/classes/sun/awt/wl/WLGraphicsDevice.java:174-179 | the window's peer, if it has one, is sent one full-screen request carrying the device id; otherwise nothing is sent |
| `WLGraphics.WLGraphicsDevice.ExitFullScreenExclusive` | src/java.desktop/unix/classes/sun/awt/wl/WLGraphicsDevice.java:181-186 | the window's peer, if it has one, is sent one unset request; otherwise nothing is sent |
| `WLGraphics.WLGraphicsDevice.AddWindow` | src/java.desktop/unix/classes/sun/awt/wl/WLGraphicsDevice.java:188-191 | the device is left unchanged |
| `WLGraphics.WLGraphicsDevice.RemoveWindow` | src/java.desktop/unix/classes/sun/awt/wl/WLGraphicsDevice.java:193-196 | the device is left unchanged |
| `FullScreen.SetFullScreenWindow` | src/java.desktop/unix/classes/sun/awt/wl/WLGraphicsDevice.java:157-186 | the new full-screen window is `w`; the request log only grows, by at most one request; a request is sent exactly when `w` differs from the current window and the window concerned has a peer; it is a full-screen request with the output id to `w`'s peer when `w` is non-null, and an unset request to the previous window's peer when `w` is null |
| `FullScreen.SetFullScreenWindowPairsRequests` | src/java.desktop/unix/classes/sun/awt/wl/WLGraphicsDevice.java:157-186 | one call keeps two facts: every unset request goes to a peer that was earlier asked to go full-screen, and the current window's peer has been asked to go full-screen |
| `FullScreen.RunPairsRequests` | src/java.desktop/unix/classes/sun/awt/wl/WLGraphicsDevice.java:157-186 | any sequence of calls keeps both facts, so no peer is told to leave full-screen mode without first having been told to enter it |
| `FullScreen.SwitchScenario` | src/java.desktop/unix/classes/sun/awt/wl/WLGraphicsDevice.java:157-172 | for the calls w1, w1, w2, null, the log is: full-screen to w1's peer, full-screen to w2's peer, unset to w2's peer; repeating w1 sends nothing, and switching to w2 does not unset w1 |
| `WLGraphics.FullScreenAcrossInvalidate` | src/java.desktop/unix/classes/sun/awt/wl/WLGraphicsDevice.java:91-99 | on one device, the full-screen window survives `invalidate`; requests sent before it carry the old output id and requests sent after it carry the new one |

## Left out

- The choice between a Vulkan configuration and a software configuration (lines 80-82) depends on a global capability flag and on factories that are not part of this model. Both are modelled as one constructor of an immutable `WLGraphicsConfig` with the given width, height and scale. The configuration's back-reference to its device is not modelled.
- `WLGraphicsConfig.differsFrom` and `getBounds` are not part of this model. `DiffersFrom` is modelled as "width, height or scale differ". The bounds are modelled as (width, height); the origin of the Java `Rectangle` is not modelled.
- `volatile` visibility, and the fact that `invalidate` is not atomic, are left out. The model is sequential.
- The `AWTAccessor` peer lookup becomes the `peerOf` map parameter. `RunPairsRequests` assumes that map does not change between calls.
- The full-screen window that the `GraphicsDevice` superclass keeps is modelled as the field `fullScreenWindow`. The rest of the superclass's bookkeeping is not modelled.
- `isFullScreenSupported` always returns true, so its check in `setFullScreenWindow` is dropped.
- The unused `peers` list is left out.
- `getType` and `getIDstring` are constant or field getters and are left out. `GetID` and `GetScale` are modelled as plain field reads; what they return is stated in the contracts of `CreateWithConfiguration` and `Invalidate`.
- A device whose configuration is still null exists only inside `createWithConfiguration`, because the Java constructor is private (line 65). So `GetDefaultConfiguration`, `GetConfigurations`, `GetScale` and `Invalidate` (for the other device) require `config != null`. In Java, `invalidate` on an unconfigured device would throw a NullPointerException at line 96, after overwriting the id and position at lines 92-94; the model does not capture that partial update.
- `toString` formatting is left out.
- The documentation-writer class `AnnotationTypeMemberWriter` is not part of this model. It assembles HTML over an element model that is not available.
