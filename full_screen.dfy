/** Full-screen switching of an output device: which window is full-screen on it,
    and which requests the device sends to the windows' peers when that changes. */
module FullScreen {
  import opened JavaInt

  /** An AWT window; windows are compared by reference. */
  class Window {
    constructor () {}
  }

  /** The platform peer of a window, which carries out full-screen requests. */
  class ComponentPeer {
    constructor () {}
  }

  /** A call a device makes on a peer. */
  datatype PeerRequest =
    | RequestFullScreen(peer: ComponentPeer, outputId: int32)
    | RequestUnsetFullScreen(peer: ComponentPeer)

  /** The full-screen window of a device (null when none) and every request it has sent so far. */
  datatype FullScreenState = FullScreenState(window: Window?, log: seq<PeerRequest>)

  /** One call of setFullScreenWindow, with the device's output id at the time of the call. */
  datatype FullScreenCall = FullScreenCall(window: Window?, outputId: int32)

  /** Peer lookup: a window that is not in the map has no peer. */
  predicate HasPeer(w: Window?, peerOf: map<Window, ComponentPeer>) {
    w != null && w in peerOf
  }

  /** What enterFullScreenExclusive sends: a full-screen request to the window's peer, if it has one. */
  function EnterRequests(w: Window, outputId: int32, peerOf: map<Window, ComponentPeer>): seq<PeerRequest> {
    if w in peerOf then [RequestFullScreen(peerOf[w], outputId)] else []
  }

  /** What exitFullScreenExclusive sends: an unset request to the window's peer, if it has one. */
  function ExitRequests(w: Window, peerOf: map<Window, ComponentPeer>): seq<PeerRequest> {
    if w in peerOf then [RequestUnsetFullScreen(peerOf[w])] else []
  }

  /** setFullScreenWindow(w) on a device whose output id is `outputId`. */
  function SetFullScreenWindow(s: FullScreenState, w: Window?, outputId: int32,
                               peerOf: map<Window, ComponentPeer>): (r: FullScreenState)
    // w becomes the full-screen window, whether or not it already was
    ensures r.window == w
    // requests are only ever appended, at most one per call
    ensures |s.log| <= |r.log| <= |s.log| + 1 && r.log[..|s.log|] == s.log
    // a request is sent exactly when the window changes and the window concerned has a peer:
    // the new window when it is non-null, the previous one when the new one is null
    ensures |r.log| == |s.log| + 1 <==>
              w != s.window && ((w != null && HasPeer(w, peerOf)) || (w == null && HasPeer(s.window, peerOf)))
    ensures |r.log| == |s.log| + 1 && w != null ==> r.log[|s.log|] == RequestFullScreen(peerOf[w], outputId)
    ensures |r.log| == |s.log| + 1 && w == null ==>
              s.window != null && r.log[|s.log|] == RequestUnsetFullScreen(peerOf[s.window])
  {
    if w == s.window then s
    else if w != null then FullScreenState(w, s.log + EnterRequests(w, outputId, peerOf))
    else FullScreenState(w, s.log + ExitRequests(s.window, peerOf))
  }

  /** The state after a sequence of setFullScreenWindow calls. */
  function Run(s: FullScreenState, calls: seq<FullScreenCall>, peerOf: map<Window, ComponentPeer>): FullScreenState
    decreases |calls|
  {
    if calls == [] then s
    else
      var c := calls[|calls| - 1];
      SetFullScreenWindow(Run(s, calls[..|calls| - 1], peerOf), c.window, c.outputId, peerOf)
  }

  /** The peers that have been sent a full-screen request in `log`. */
  function FullScreenPeers(log: seq<PeerRequest>): set<ComponentPeer> {
    set i | 0 <= i < |log| && log[i].RequestFullScreen? :: log[i].peer
  }

  /** Every unset request goes to a peer that was earlier asked to go full-screen. */
  ghost predicate UnsetFollowsSet(log: seq<PeerRequest>) {
    forall i :: 0 <= i < |log| && log[i].RequestUnsetFullScreen? ==> log[i].peer in FullScreenPeers(log[..i])
  }

  /** The current full-screen window's peer, if any, has been asked to go full-screen. */
  ghost predicate CurrentWasEntered(s: FullScreenState, peerOf: map<Window, ComponentPeer>) {
    HasPeer(s.window, peerOf) ==> peerOf[s.window] in FullScreenPeers(s.log)
  }

  /** One call keeps both properties of the request log. */
  lemma SetFullScreenWindowPairsRequests(s: FullScreenState, w: Window?, outputId: int32,
                                         peerOf: map<Window, ComponentPeer>)
    requires UnsetFollowsSet(s.log) && CurrentWasEntered(s, peerOf)
    ensures var r := SetFullScreenWindow(s, w, outputId, peerOf);
      UnsetFollowsSet(r.log) && CurrentWasEntered(r, peerOf)
  {
  }

  /** From any state that satisfies them, every sequence of calls keeps both properties;
      in particular no peer is ever told to leave full-screen mode that was not told to enter it. */
  lemma {:induction false} RunPairsRequests(s: FullScreenState, calls: seq<FullScreenCall>,
                                            peerOf: map<Window, ComponentPeer>)
    requires UnsetFollowsSet(s.log) && CurrentWasEntered(s, peerOf)
    ensures var r := Run(s, calls, peerOf);
      UnsetFollowsSet(r.log) && CurrentWasEntered(r, peerOf)
    decreases |calls|
  {
    if calls != [] {
      var c := calls[|calls| - 1];
      RunPairsRequests(s, calls[..|calls| - 1], peerOf);
      SetFullScreenWindowPairsRequests(Run(s, calls[..|calls| - 1], peerOf), c.window, c.outputId, peerOf);
    }
  }

  /** The sequence w1, w1, w2, null: the repeated w1 sends nothing, and switching from w1 to w2
      asks w2's peer to go full-screen without asking w1's peer to leave. */
  lemma SwitchScenario(w1: Window, w2: Window, p1: ComponentPeer, p2: ComponentPeer, id: int32)
    requires w1 != w2
    ensures var peerOf := map[w1 := p1, w2 := p2];
      var calls := [FullScreenCall(w1, id), FullScreenCall(w1, id), FullScreenCall(w2, id), FullScreenCall(null, id)];
      Run(FullScreenState(null, []), calls, peerOf) ==
        FullScreenState(null, [RequestFullScreen(p1, id), RequestFullScreen(p2, id), RequestUnsetFullScreen(p2)])
  {
    var peerOf := map[w1 := p1, w2 := p2];
    var calls := [FullScreenCall(w1, id), FullScreenCall(w1, id), FullScreenCall(w2, id), FullScreenCall(null, id)];
    var s0 := FullScreenState(null, []);
    assert calls[..3][..2][..1][..0] == [];
    assert Run(s0, calls[..1], peerOf) == FullScreenState(w1, [RequestFullScreen(p1, id)]);
    assert calls[..3][..2] == calls[..2];
    assert Run(s0, calls[..2], peerOf) == FullScreenState(w1, [RequestFullScreen(p1, id)]);
    assert Run(s0, calls[..3], peerOf) == FullScreenState(w2, [RequestFullScreen(p1, id), RequestFullScreen(p2, id)]);
  }
}
