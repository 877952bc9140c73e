/**
 * The player daemon (MPD) as the screens see it: one status snapshot per
 * poll tick and a log of the commands the screens send it.  The client that
 * talks the MPD protocol is not part of this model; what a command does to
 * the snapshot is fixed by `Apply` below.
 */
module Mpd {

  /** The playback commands `player_control_set` accepts. */
  datatype Action = Play | Pause | Previous | Next

  /** Every command the screens issue to the daemon. */
  datatype Command =
    | ControlSet(action: Action)     // player_control_set('play' | 'pause' | 'previous' | 'next')
    | PlayItem(nr: int)              // play_playlist_item(nr), nr counted from 1
    | VolumeRelative(delta: int)     // volume_set_relative(delta)
    | VolumeSet(percent: int)        // volume_set(percent)
    | MuteSwitch                     // volume_mute_switch()

  /**
   * What the daemon reports at one tick: the current playlist and playing
   * index, the control state ("play", "pause", "stop", ...), volume and mute,
   * the "current song changed" signal, whether this tick's status fetch
   * succeeded, and the pre-formatted texts the labels show.
   */
  datatype Status = Status(
    playlist: seq<string>,
    playingIndex: int,
    control: string,
    volume: int,
    muted: bool,
    songChanged: bool,
    statusOk: bool,
    timeCurrent: string,
    timeTotal: string,
    trackName: string,
    trackArtist: string)

  const MAX_VOLUME := 100

  /** The daemon keeps its volume within 0..100. */
  function Clamp(v: int): (r: int)
    ensures 0 <= r <= MAX_VOLUME
    ensures 0 <= v <= MAX_VOLUME ==> r == v
    ensures v < 0 ==> r == 0
    ensures MAX_VOLUME < v ==> r == MAX_VOLUME
  {
    if v < 0 then 0 else if MAX_VOLUME < v then MAX_VOLUME else v
  }

  /**
   * The effect of one command on the snapshot.  Volume commands move the
   * volume (kept within 0..100), the mute switch flips the mute flag; the
   * playback commands take effect in the daemon and show up in a later
   * snapshot, so they leave this one as it is.
   */
  function Apply(s: Status, c: Command): (r: Status)
    ensures r.playlist == s.playlist && r.playingIndex == s.playingIndex
    ensures r.control == s.control && r.songChanged == s.songChanged && r.statusOk == s.statusOk
    ensures r.trackName == s.trackName && r.trackArtist == s.trackArtist
    ensures r.timeCurrent == s.timeCurrent && r.timeTotal == s.timeTotal
    ensures c.VolumeRelative? || c.VolumeSet? ==> 0 <= r.volume <= MAX_VOLUME && r.muted == s.muted
    ensures c.VolumeRelative? && 0 <= s.volume + c.delta <= MAX_VOLUME ==> r.volume == s.volume + c.delta
    ensures c.VolumeRelative? && s.volume + c.delta < 0 ==> r.volume == 0
    ensures c.VolumeRelative? && MAX_VOLUME < s.volume + c.delta ==> r.volume == MAX_VOLUME
    ensures c.VolumeSet? && 0 <= c.percent <= MAX_VOLUME ==> r.volume == c.percent
    ensures c.VolumeSet? && c.percent < 0 ==> r.volume == 0
    ensures c.VolumeSet? && MAX_VOLUME < c.percent ==> r.volume == MAX_VOLUME
    ensures c.MuteSwitch? ==> r.muted != s.muted && r.volume == s.volume
    ensures c.ControlSet? || c.PlayItem? ==> r == s
  {
    match c
    case VolumeRelative(d) => s.(volume := Clamp(s.volume + d))
    case VolumeSet(p) => s.(volume := Clamp(p))
    case MuteSwitch => s.(muted := !s.muted)
    case _ => s
  }

  /** The shared client object every screen polls and commands. */
  class Client {
    var status: Status
    var sent: seq<Command>

    constructor (initial: Status)
      ensures status == initial && sent == []
    {
      status, sent := initial, [];
    }

    /** Sends one command: it is logged and applied to the snapshot. */
    method Send(c: Command)
      modifies this
      ensures status == Apply(old(status), c)
      ensures sent == old(sent) + [c]
    {
      status := Apply(status, c);
      sent := sent + [c];
    }

    /** `current_song_changed()`: reports the signal and clears it, so it fires once per change. */
    method CurrentSongChanged() returns (changed: bool)
      modifies this
      ensures changed == old(status.songChanged)
      ensures status == old(status).(songChanged := false)
      ensures sent == old(sent)
    {
      changed := status.songChanged;
      status := status.(songChanged := false);
    }
  }
}
