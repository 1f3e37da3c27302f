/** The ICE candidate wire struct and its conversions to and from the engine's candidate
    (PhotoGetherData/Interface/Message/IceCandidate.swift). */
module IceCandidates {
  import opened Common

  /** Swift's `Int32`. */
  newtype int32 = x: int | -0x8000_0000 <= x < 0x8000_0000

  /** The media engine's candidate (`RTCIceCandidate`): only the three SDP fields. */
  datatype RTCIceCandidate = RTCIceCandidate(sdp: string, sdpMLineIndex: int32, sdpMid: Option<string>)

  /** The struct sent over the relay: the SDP fields plus the sender's user ID and the room ID. */
  datatype IceCandidate = IceCandidate(
    sdp: string,
    sdpMLineIndex: int32,
    sdpMid: Option<string>,
    userID: string,
    roomID: string)

  /** The `rtcIceCandidate` computed property: rebuilds the engine's candidate from the wire struct. */
  function ToRTC(w: IceCandidate): RTCIceCandidate
  {
    RTCIceCandidate(w.sdp, w.sdpMLineIndex, w.sdpMid)
  }

  /** `init(from:userID:roomID:)`: the wire struct for an engine candidate. Converting it back
      gives the candidate it was made from, and the IDs are the ones passed in. */
  function FromRTC(c: RTCIceCandidate, userID: string, roomID: string): (w: IceCandidate)
    ensures ToRTC(w) == c
    ensures w.userID == userID && w.roomID == roomID
  {
    IceCandidate(sdp := c.sdp, sdpMLineIndex := c.sdpMLineIndex, sdpMid := c.sdpMid,
                 userID := userID, roomID := roomID)
  }

  /** The initializer copies the three SDP fields unchanged, a missing `sdpMid` included. */
  lemma FromRTCCopiesSdpFields(c: RTCIceCandidate, userID: string, roomID: string)
    ensures FromRTC(c, userID, roomID).sdp == c.sdp
    ensures FromRTC(c, userID, roomID).sdpMLineIndex == c.sdpMLineIndex
    ensures FromRTC(c, userID, roomID).sdpMid == c.sdpMid
    ensures c.sdpMid.None? <==> FromRTC(c, userID, roomID).sdpMid.None?
  {
  }

  /** The conversion back ignores who sent the candidate and for which room: two wire structs
      that agree on the SDP fields give the same engine candidate, and when they differ in an
      SDP field the engine candidates differ too. */
  lemma ToRTCDependsOnlyOnSdpFields(w1: IceCandidate, w2: IceCandidate)
    ensures ToRTC(w1) == ToRTC(w2) <==>
            (w1.sdp == w2.sdp && w1.sdpMLineIndex == w2.sdpMLineIndex && w1.sdpMid == w2.sdpMid)
  {
  }

  /** The other round trip: a wire struct converted to the engine's candidate and back, with its
      own IDs, is the struct itself. */
  lemma WireRoundTrip(w: IceCandidate)
    ensures FromRTC(ToRTC(w), w.userID, w.roomID) == w
  {
  }

  /** Tagging is injective on candidates: different engine candidates never share a wire struct. */
  lemma FromRTCInjective(c1: RTCIceCandidate, c2: RTCIceCandidate, userID: string, roomID: string)
    requires FromRTC(c1, userID, roomID) == FromRTC(c2, userID, roomID)
    ensures c1 == c2
  {
  }
}
