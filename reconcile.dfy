/**
 * The reconciliation and dispatch logic of the player screens, as functions
 * of the widget state and the daemon's status snapshot.  Each function gives
 * the widget state after the operation, the snapshot after the commands it
 * sends, the commands themselves and the draws, in order.  The classes in
 * module Screens are proved to do exactly this; the lemmas below say what
 * it amounts to: what is redrawn, which command is sent, which icon results.
 */
module Reconcile {
  import opened Mpd
  import opened Widgets

  /** The playlist widget: its copy of the playlist, `active_item_index`, `item_selected_index`. */
  datatype ListView = ListView(items: seq<string>, active: int, selected: int)

  /** The state of ScreenPlayer's widgets that its methods change. */
  datatype PlayerView = PlayerView(list: ListView, playIcon: PlayIcon)

  /** The state of ScreenVolume: the mute button's image, the slider's percentage, closed or not. */
  datatype VolumeView = VolumeView(muteIcon: MuteIcon, slider: int, closed: bool)

  /** The result of one operation on a screen whose changing state is `V`. */
  datatype Outcome<V> = Outcome(view: V, status: Status, sent: seq<Command>, drawn: seq<Event>)

  /** The result of a click on ScreenPlayer: its outcome and the screen index it returns, if any. */
  datatype Clicked = Clicked(out: Outcome<PlayerView>, screen: Option<nat>)

  /** The play button shows PAUSE exactly while the daemon is playing. */
  function IconFor(control: string): PlayIcon {
    if control == "play" then IcoPause else IcoPlay
  }

  /** The mute button shows its active variant when the volume is 0 or the daemon is muted. */
  function MuteIconFor(s: Status): MuteIcon {
    if s.volume == 0 || s.muted then IcoVolumeMuteActive else IcoVolumeMute
  }

  /** The playlist widget shows what the daemon reports. */
  predicate Mirrors(w: ListView, s: Status) {
    w.items == s.playlist && w.active == s.playingIndex
  }

  // ---------------------------------------------------------------------
  // Playlist.show_playlist

  function ShowPlaylist(w: ListView, s: Status): (r: Outcome<ListView>)
    ensures Mirrors(r.view, s) && r.view.selected == w.selected
    ensures r.status == s && r.sent == []
    ensures r.drawn == if Mirrors(w, s) then [] else [Drew(ListPlaying)]
  {
    var w1 := if w.items != s.playlist then w.(items := s.playlist) else w;
    var w2 := if w1.active != s.playingIndex then w1.(active := s.playingIndex) else w1;
    var updated := w.items != s.playlist || w.active != s.playingIndex;
    Outcome(w2, s, [], if updated then [Drew(ListPlaying)] else [])
  }

  /** A second show_playlist against the same snapshot changes and draws nothing. */
  lemma ShowPlaylistSettles(w: ListView, s: Status)
    ensures ShowPlaylist(ShowPlaylist(w, s).view, s).view == ShowPlaylist(w, s).view
    ensures ShowPlaylist(ShowPlaylist(w, s).view, s).drawn == []
  {
  }

  // ---------------------------------------------------------------------
  // The pieces of ScreenPlayer.update and ScreenCoverArt.event_loop_hook

  /** The play/pause icon rule: the new icon and the redraw, if the icon flipped. */
  function PlayIconStep(icon: PlayIcon, control: string): (r: (PlayIcon, seq<Event>))
    ensures r.0 == IconFor(control)
    ensures r.1 == if r.0 == icon then [] else [Drew(BtnPlay)]
  {
    if icon != IcoPause && control == "play" then (IcoPause, [Drew(BtnPlay)])
    else if icon == IcoPause && control != "play" then (IcoPlay, [Drew(BtnPlay)])
    else assert icon.IcoPlay? || icon.IcoPause?; (icon, [])
  }

  /** The time and volume labels, drawn on every pass. */
  function StatusLabels(s: Status): seq<Event> {
    [Wrote(LblTime, TimeText(s.timeCurrent, s.timeTotal)), Wrote(LblVolume, VolumeText(s.volume))]
  }

  /** The title and artist labels, drawn when the daemon signals a new song. */
  function SongLabels(s: Status): seq<Event> {
    if s.songChanged then [Wrote(LblTrackTitle, s.trackName), Wrote(LblTrackArtist, s.trackArtist)] else []
  }

  /** update's guard on the playlist: show_playlist runs only when the playing index moved. */
  function PlaylistIfMoved(w: ListView, s: Status): (r: Outcome<ListView>)
    ensures r.view.active == s.playingIndex && r.view.selected == w.selected
    ensures w.active != s.playingIndex ==> Mirrors(r.view, s) && r.drawn == [Drew(ListPlaying)]
    ensures w.active == s.playingIndex ==> r.view == w && r.drawn == []
    ensures r.status == s && r.sent == []
  {
    if w.active != s.playingIndex then ShowPlaylist(w, s) else Outcome(w, s, [], [])
  }

  // ---------------------------------------------------------------------
  // ScreenPlayer.update

  function UpdateTick(v: PlayerView, s: Status): (r: Outcome<PlayerView>)
    ensures r.view.list.active == s.playingIndex && r.view.list.selected == v.list.selected
    ensures v.list.active != s.playingIndex ==> Mirrors(r.view.list, s)
    ensures v.list.active == s.playingIndex ==> r.view.list == v.list
    ensures r.view.playIcon == IconFor(s.control)
    ensures r.status == s.(songChanged := false) && r.sent == []
  {
    var p := PlaylistIfMoved(v.list, s);
    var icon := PlayIconStep(v.playIcon, s.control);
    Outcome(PlayerView(p.view, icon.0), s.(songChanged := false), [],
            p.drawn + StatusLabels(s) + icon.1 + SongLabels(s))
  }

  // ---------------------------------------------------------------------
  // ScreenPlayer.show: update, the base full render, show_playlist, show_item_active

  function ShowScreen(v: PlayerView, s: Status): (r: Outcome<PlayerView>)
    ensures Mirrors(r.view.list, s) && r.view.list.selected == v.list.selected
    ensures r.view.playIcon == IconFor(s.control)
    ensures r.status == s.(songChanged := false) && r.sent == []
    ensures r.drawn == UpdateTick(v, s).drawn + [Rendered(PlayerScreen)]
                       + ShowPlaylist(UpdateTick(v, s).view.list, s).drawn + [ScrolledToActive]
  {
    var u := UpdateTick(v, s);
    var p := ShowPlaylist(u.view.list, u.status);
    Outcome(u.view.(list := p.view), u.status, [], u.drawn + [Rendered(PlayerScreen)] + p.drawn + [ScrolledToActive])
  }

  // ---------------------------------------------------------------------
  // ScreenPlayer.on_click

  /**
   * A modal screen runs its own loop, which leaves the daemon at snapshot `s`
   * after sending `sent` and drawing `drawn`; then the player screen shows
   * itself in full against that snapshot.
   */
  function AfterModal(modal: ScreenKind, v: PlayerView, s: Status, sent: seq<Command>, drawn: seq<Event>)
    : (r: Outcome<PlayerView>)
    ensures Mirrors(r.view.list, s) && r.view.list.selected == v.list.selected
    ensures r.view.playIcon == IconFor(s.control)
    ensures r.status == s.(songChanged := false) && r.sent == sent
    ensures |r.drawn| > |drawn| + 1 && r.drawn[0] == RanModal(modal) && r.drawn[1..|drawn| + 1] == drawn
    ensures Rendered(PlayerScreen) in r.drawn
  {
    var sh := ShowScreen(v, s);
    var u := UpdateTick(v, s).drawn;
    assert sh.drawn[|u|] == Rendered(PlayerScreen);
    var d := [RanModal(modal)] + drawn + sh.drawn;
    assert d[1 + |drawn| + |u|] == Rendered(PlayerScreen);
    Outcome(sh.view, sh.status, sent, d)
  }

  /** btn_play: pause when playing, play otherwise, and show the matching icon at once. */
  function TogglePlay(v: PlayerView, s: Status): (r: Outcome<PlayerView>)
    ensures r.view.list == v.list && r.status == s && r.drawn == [Drew(BtnPlay)]
    ensures s.control == "play" ==> r.sent == [ControlSet(Pause)] && r.view.playIcon == IcoPlay
    ensures s.control != "play" ==> r.sent == [ControlSet(Play)] && r.view.playIcon == IcoPause
  {
    var cmd := if s.control == "play" then ControlSet(Pause) else ControlSet(Play);
    var icon := if s.control == "play" then IcoPlay else IcoPause;
    Outcome(v.(playIcon := icon), Apply(s, cmd), [cmd], [Drew(BtnPlay)])
  }

  /** list_playing: play the selected row (counted from 1 by the daemon) and mark it active. */
  function PlaySelected(v: PlayerView, s: Status): (r: Outcome<PlayerView>)
    ensures v.list.selected >= 0 ==>
              r == Outcome(v.(list := v.list.(active := v.list.selected)), s,
                           [PlayItem(v.list.selected + 1)], [Drew(ListPlaying)])
    ensures v.list.selected < 0 ==> r == Outcome(v, s, [], [])
  {
    var selectedIndex := v.list.selected;
    if selectedIndex >= 0 then
      var cmd := PlayItem(selectedIndex + 1);
      Outcome(v.(list := v.list.(active := selectedIndex)), Apply(s, cmd), [cmd], [Drew(ListPlaying)])
    else
      Outcome(v, s, [], [])
  }

  predicate HandledByPlayer(tag: Option<Tag>) {
    tag.Some? && tag.value in {BtnHome, BtnLibrary, BtnSettings, BtnPlay, BtnPrev, BtnNext, BtnVolume, ListPlaying}
  }

  /**
   * `tag` is the widget the touch resolved to; `row` is the item index that
   * the list's own click handler records in `item_selected_index` when the
   * touch lands on the list; `touches` are the touches the volume screen
   * receives while it is open, when the tag opens it.
   */
  function PlayerClick(v: PlayerView, s: Status, tag: Option<Tag>, row: int, touches: seq<Touch>): (r: Clicked)
    ensures r.screen == if tag == Some(BtnHome) then Some(0) else if tag == Some(BtnLibrary) then Some(1) else None
    ensures tag != Some(BtnVolume) ==> |r.out.sent| <= 1
    ensures tag == Some(BtnVolume) ==>
              |r.out.sent| <= |touches| && forall i :: 0 <= i < |r.out.sent| ==> IsVolumeCommand(r.out.sent[i])
    ensures tag == Some(BtnPrev) ==> r.out == Outcome(v, s, [ControlSet(Previous)], [])
    ensures tag == Some(BtnNext) ==> r.out == Outcome(v, s, [ControlSet(Next)], [])
    ensures tag == Some(BtnPlay) ==>
              r.out.view.list == v.list && r.out.status == s && r.out.drawn == [Drew(BtnPlay)] &&
              (s.control == "play" ==> r.out.sent == [ControlSet(Pause)] && r.out.view.playIcon == IcoPlay) &&
              (s.control != "play" ==> r.out.sent == [ControlSet(Play)] && r.out.view.playIcon == IcoPause)
    ensures tag == Some(ListPlaying) && row >= 0 ==>
              r.out == Outcome(PlayerView(v.list.(active := row, selected := row), v.playIcon), s,
                               [PlayItem(row + 1)], [Drew(ListPlaying)])
    ensures tag == Some(ListPlaying) && row < 0 ==>
              r.out == Outcome(v.(list := v.list.(selected := row)), s, [], [])
    ensures tag == Some(BtnSettings) ==> r.out == AfterModal(SettingsScreen, v, s, [], [])
    ensures tag == Some(BtnVolume) ==>
              var m := VolumeSession(OpenVolume(s), s, touches);
              r.out == AfterModal(VolumeScreen, v, m.status, m.sent, m.drawn)
    ensures !HandledByPlayer(tag) ==> r.out == Outcome(v, s, [], [])
  {
    match tag
    case Some(BtnHome) => Clicked(Outcome(v, s, [], []), Some(0))
    case Some(BtnLibrary) => Clicked(Outcome(v, s, [], []), Some(1))
    case Some(BtnSettings) => Clicked(AfterModal(SettingsScreen, v, s, [], []), None)
    case Some(BtnPlay) => Clicked(TogglePlay(v, s), None)
    case Some(BtnPrev) => Clicked(Outcome(v, Apply(s, ControlSet(Previous)), [ControlSet(Previous)], []), None)
    case Some(BtnNext) => Clicked(Outcome(v, Apply(s, ControlSet(Next)), [ControlSet(Next)], []), None)
    case Some(BtnVolume) =>
      var m := VolumeSession(OpenVolume(s), s, touches);
      Clicked(AfterModal(VolumeScreen, v, m.status, m.sent, m.drawn), None)
    case Some(ListPlaying) => Clicked(PlaySelected(v.(list := v.list.(selected := row)), s), None)
    case _ => Clicked(Outcome(v, s, [], []), None)
  }

  // ---------------------------------------------------------------------
  // ScreenVolume.on_click

  /** Every click ends by recomputing the mute icon from the resulting snapshot and drawing it. */
  function FinishVolumeClick(v: VolumeView, s: Status, sent: seq<Command>): (r: Outcome<VolumeView>)
    ensures r.view.muteIcon == IcoVolumeMuteActive <==> s.volume == 0 || s.muted
    ensures r.view.slider == v.slider && r.view.closed == v.closed
    ensures r.status == s && r.sent == sent && r.drawn == [Drew(BtnMute)]
  {
    Outcome(v.(muteIcon := MuteIconFor(s)), s, sent, [Drew(BtnMute)])
  }

  /** `sliderAt` is the percentage the slider's own click handler records when the touch lands on it. */
  function VolumeClick(v: VolumeView, s: Status, tag: Option<Tag>, sliderAt: int): (r: Outcome<VolumeView>)
    ensures r.view.muteIcon == IcoVolumeMuteActive <==> r.status.volume == 0 || r.status.muted
    ensures r.drawn == [Drew(BtnMute)]
    ensures r.view.closed == (v.closed || tag == Some(BtnBack))
    ensures tag == Some(BtnVolumeUp) ==>
              r.sent == [VolumeRelative(10)] && r.status == s.(volume := Clamp(s.volume + 10)) &&
              r.view.slider == r.status.volume
    ensures tag == Some(BtnVolumeDown) ==>
              r.sent == [VolumeRelative(-10)] && r.status == s.(volume := Clamp(s.volume - 10)) &&
              r.view.slider == r.status.volume
    ensures tag == Some(BtnMute) ==>
              r.sent == [MuteSwitch] && r.status == s.(muted := !s.muted) && r.view.slider == s.volume
    ensures tag == Some(SlideVolume) ==>
              r.sent == [VolumeSet(sliderAt)] && r.status == s.(volume := Clamp(sliderAt)) &&
              r.view.slider == sliderAt
    ensures !(tag.Some? && tag.value in {BtnMute, BtnVolumeDown, BtnVolumeUp, SlideVolume}) ==>
              r.sent == [] && r.status == s && r.view.slider == v.slider
    ensures |r.sent| <= 1 && (r.sent != [] ==> IsVolumeCommand(r.sent[0]))
  {
    if tag == Some(BtnMute) then
      var s1 := Apply(s, MuteSwitch);
      FinishVolumeClick(v.(slider := s1.volume), s1, [MuteSwitch])
    else if tag == Some(BtnVolumeDown) then
      var s1 := Apply(s, VolumeRelative(-10));
      FinishVolumeClick(v.(slider := s1.volume), s1, [VolumeRelative(-10)])
    else if tag == Some(BtnVolumeUp) then
      var s1 := Apply(s, VolumeRelative(10));
      FinishVolumeClick(v.(slider := s1.volume), s1, [VolumeRelative(10)])
    else if tag == Some(SlideVolume) then
      var v1 := v.(slider := sliderAt);
      FinishVolumeClick(v1, Apply(s, VolumeSet(v1.slider)), [VolumeSet(v1.slider)])
    else if tag == Some(BtnBack) then
      FinishVolumeClick(v.(closed := true), s, [])
    else
      FinishVolumeClick(v, s, [])
  }

  /** One touch on the volume screen: the tag it resolved to and the percentage the slider recorded. */
  datatype Touch = Touch(tag: Option<Tag>, sliderAt: int)

  predicate IsVolumeCommand(c: Command) {
    c.VolumeRelative? || c.VolumeSet? || c.MuteSwitch?
  }

  /** The volume screen as it opens: the plain mute image and the slider at the daemon's volume. */
  function OpenVolume(s: Status): VolumeView {
    VolumeView(IcoVolumeMute, s.volume, false)
  }

  /** The volume screen's loop: each touch in turn goes to on_click, until back closes the screen. */
  function VolumeSession(v: VolumeView, s: Status, touches: seq<Touch>): (r: Outcome<VolumeView>)
    decreases |touches|
    ensures |r.sent| <= |touches|
    ensures forall i :: 0 <= i < |r.sent| ==> IsVolumeCommand(r.sent[i])
    ensures r.status == s.(volume := r.status.volume, muted := r.status.muted)
    ensures touches == [] || v.closed ==> r == Outcome(v, s, [], [])
    ensures touches != [] && !v.closed ==>
              (r.view.muteIcon == IcoVolumeMuteActive <==> r.status.volume == 0 || r.status.muted)
  {
    if touches == [] || v.closed then Outcome(v, s, [], [])
    else
      var c := VolumeClick(v, s, touches[0].tag, touches[0].sliderAt);
      var rest := VolumeSession(c.view, c.status, touches[1..]);
      assert forall i :: |c.sent| <= i < |c.sent + rest.sent| ==> (c.sent + rest.sent)[i] == rest.sent[i - |c.sent|];
      Outcome(rest.view, rest.status, c.sent + rest.sent, c.drawn + rest.drawn)
  }

  // ---------------------------------------------------------------------
  // ScreenCoverArt.event_loop_hook

  function HookTick(icon: PlayIcon, s: Status): (r: Outcome<PlayIcon>)
    ensures s.statusOk ==> r.view == IconFor(s.control)
    ensures !s.statusOk ==> r.view == icon
    ensures r.status == s.(songChanged := false) && r.sent == []
  {
    var step := PlayIconStep(icon, s.control);
    var polled := if s.statusOk then (step.0, StatusLabels(s) + step.1) else (icon, []);
    Outcome(polled.0, s.(songChanged := false), [], polled.1 + SongLabels(s))
  }

  // ---------------------------------------------------------------------
  // What gets redrawn

  lemma RedrawsOfPair(a: Event, b: Event, t: Tag)
    ensures Redraws([a, b], t) == (if Touches(a, t) then 1 else 0) + (if Touches(b, t) then 1 else 0)
  {
    assert [a, b] == [a] + [b];
    RedrawsConcat([a], [b], t);
  }

  lemma RedrawsOfLabels(s: Status, t: Tag)
    ensures Redraws(StatusLabels(s), t) == if t == LblTime || t == LblVolume then 1 else 0
    ensures Redraws(SongLabels(s), t) ==
              if s.songChanged && (t == LblTrackTitle || t == LblTrackArtist) then 1 else 0
  {
    RedrawsOfPair(StatusLabels(s)[0], StatusLabels(s)[1], t);
    if s.songChanged {
      RedrawsOfPair(SongLabels(s)[0], SongLabels(s)[1], t);
    }
  }

  /**
   * One update redraws the list when the playing index moved, the time and
   * volume labels always, the play button when its icon flips, the title and
   * artist when the song changed, and nothing else.
   */
  lemma UpdateRedraws(v: PlayerView, s: Status, t: Tag)
    ensures Redraws(UpdateTick(v, s).drawn, t) ==
              if t == ListPlaying then (if v.list.active != s.playingIndex then 1 else 0)
              else if t == LblTime || t == LblVolume then 1
              else if t == BtnPlay then (if IconFor(s.control) != v.playIcon then 1 else 0)
              else if t == LblTrackTitle || t == LblTrackArtist then (if s.songChanged then 1 else 0)
              else 0
  {
    var p := PlaylistIfMoved(v.list, s).drawn;
    var d := PlayIconStep(v.playIcon, s.control).1;
    RedrawsOfMoves(v, s, t);
    RedrawsOfStep(v.playIcon, s.control, t);
    RedrawsOfLabels(s, t);
    RedrawsConcat(p, StatusLabels(s), t);
    RedrawsConcat(p + StatusLabels(s), d, t);
    RedrawsConcat(p + StatusLabels(s) + d, SongLabels(s), t);
  }

  lemma RedrawsOfMoves(v: PlayerView, s: Status, t: Tag)
    ensures Redraws(PlaylistIfMoved(v.list, s).drawn, t) ==
              if t == ListPlaying && v.list.active != s.playingIndex then 1 else 0
  {
  }

  lemma RedrawsOfStep(icon: PlayIcon, control: string, t: Tag)
    ensures Redraws(PlayIconStep(icon, control).1, t) == if t == BtnPlay && IconFor(control) != icon then 1 else 0
  {
  }

  /**
   * A second update against an unchanged snapshot keeps every widget as it
   * is and redraws only the two labels that update draws unconditionally.
   */
  lemma UpdateSettles(v: PlayerView, s: Status, t: Tag)
    ensures UpdateTick(UpdateTick(v, s).view, UpdateTick(v, s).status).view == UpdateTick(v, s).view
    ensures Redraws(UpdateTick(UpdateTick(v, s).view, UpdateTick(v, s).status).drawn, t) ==
              if t == LblTime || t == LblVolume then 1 else 0
  {
    var u := UpdateTick(v, s);
    UpdateRedraws(u.view, u.status, t);
  }

  /**
   * show repaints the list exactly once when the list or the index differed
   * (in update's show_playlist or in its own, never both) and not otherwise.
   */
  lemma ShowRedrawsListOnce(v: PlayerView, s: Status)
    ensures Redraws(ShowScreen(v, s).drawn, ListPlaying) == if Mirrors(v.list, s) then 0 else 1
  {
    var u := UpdateTick(v, s);
    var p := ShowPlaylist(u.view.list, s);
    UpdateRedraws(v, s, ListPlaying);
    RedrawsConcat(u.drawn, [Rendered(PlayerScreen)], ListPlaying);
    RedrawsConcat(u.drawn + [Rendered(PlayerScreen)], p.drawn, ListPlaying);
    RedrawsConcat(u.drawn + [Rendered(PlayerScreen)] + p.drawn, [ScrolledToActive], ListPlaying);
  }

  /**
   * The cover-art hook draws the time and volume labels only when the status
   * fetch succeeded, the play button only then and only on a flip, and the
   * title and artist whenever the song changed.
   */
  lemma HookRedraws(icon: PlayIcon, s: Status, t: Tag)
    ensures Redraws(HookTick(icon, s).drawn, t) ==
              if t == LblTime || t == LblVolume then (if s.statusOk then 1 else 0)
              else if t == BtnPlay then (if s.statusOk && IconFor(s.control) != icon then 1 else 0)
              else if t == LblTrackTitle || t == LblTrackArtist then (if s.songChanged then 1 else 0)
              else 0
  {
    RedrawsOfLabels(s, t);
    if s.statusOk {
      var d := PlayIconStep(icon, s.control).1;
      assert HookTick(icon, s).drawn == StatusLabels(s) + d + SongLabels(s);
      RedrawsOfStep(icon, s.control, t);
      RedrawsConcat(StatusLabels(s), d, t);
      RedrawsConcat(StatusLabels(s) + d, SongLabels(s), t);
    } else {
      assert HookTick(icon, s).drawn == [] + SongLabels(s);
    }
  }

  /**
   * A tap on list row i sends play_playlist_item(i + 1) and marks row i
   * active; once the daemon reports i as the playing index, the next update
   * leaves the list alone: the optimistic index is confirmed, not redrawn.
   */
  lemma ListTapConfirmed(v: PlayerView, s: Status, row: int, later: Status)
    requires row >= 0 && later.playingIndex == row
    ensures PlayerClick(v, s, Some(ListPlaying), row, []).out.sent == [PlayItem(row + 1)]
    ensures UpdateTick(PlayerClick(v, s, Some(ListPlaying), row, []).out.view, later).view.list.active == row
    ensures Redraws(UpdateTick(PlayerClick(v, s, Some(ListPlaying), row, []).out.view, later).drawn, ListPlaying) == 0
  {
    UpdateRedraws(PlayerClick(v, s, Some(ListPlaying), row, []).out.view, later, ListPlaying);
  }

  /**
   * The same tap when the daemon counts the playing index from 1, as the
   * command it was sent does: the next update sees row + 1, not row, and
   * redraws the list to move the active mark one row down.
   */
  lemma ListTapOneBased(v: PlayerView, s: Status, row: int, later: Status)
    requires row >= 0 && later.playingIndex == row + 1
    ensures UpdateTick(PlayerClick(v, s, Some(ListPlaying), row, []).out.view, later).view.list.active == row + 1
    ensures Redraws(UpdateTick(PlayerClick(v, s, Some(ListPlaying), row, []).out.view, later).drawn, ListPlaying) == 1
  {
    UpdateRedraws(PlayerClick(v, s, Some(ListPlaying), row, []).out.view, later, ListPlaying);
  }

  /**
   * The optimistic icon of btn_play is confirmed, not redrawn, once the
   * daemon reports the commanded state.
   */
  lemma TogglePlayConfirmed(v: PlayerView, s: Status, later: Status)
    requires later.control == if s.control == "play" then "pause" else "play"
    ensures Redraws(UpdateTick(TogglePlay(v, s).view, later).drawn, BtnPlay) == 0
  {
    UpdateRedraws(TogglePlay(v, s).view, later, BtnPlay);
  }

  /**
   * After a modal screen the list is redrawn once by the player's show if it
   * differs from the daemon's, besides whatever the modal drew.
   */
  lemma AfterModalRedrawsListOnce(modal: ScreenKind, v: PlayerView, s: Status, sent: seq<Command>, drawn: seq<Event>)
    ensures Redraws(AfterModal(modal, v, s, sent, drawn).drawn, ListPlaying) ==
              Redraws(drawn, ListPlaying) + if Mirrors(v.list, s) then 0 else 1
  {
    ShowRedrawsListOnce(v, s);
    RedrawsConcat([RanModal(modal)], drawn, ListPlaying);
    RedrawsConcat([RanModal(modal)] + drawn, ShowScreen(v, s).drawn, ListPlaying);
  }

  /**
   * Opening the volume screen, raising the volume once and going back: the
   * daemon is sent one relative change of +10, and the player screen, shown
   * again, writes the new volume in its label.
   */
  lemma VolumeUpShown(pv: PlayerView, s: Status, row: int)
    requires 0 <= s.volume <= 90
    ensures PlayerClick(pv, s, Some(BtnVolume), row, [Touch(Some(BtnVolumeUp), 0), Touch(Some(BtnBack), 0)]).out.sent
              == [VolumeRelative(10)]
    ensures Wrote(LblVolume, VolumeText(s.volume + 10)) in
              PlayerClick(pv, s, Some(BtnVolume), row, [Touch(Some(BtnVolumeUp), 0), Touch(Some(BtnBack), 0)]).out.drawn
  {
    var touches := [Touch(Some(BtnVolumeUp), 0), Touch(Some(BtnBack), 0)];
    var m := VolumeSession(OpenVolume(s), s, touches);
    var c := VolumeClick(OpenVolume(s), s, Some(BtnVolumeUp), 0);
    var back := VolumeClick(c.view, c.status, Some(BtnBack), 0);
    assert touches[1..][1..] == [];
    assert VolumeSession(back.view, back.status, touches[1..][1..]) == Outcome(back.view, back.status, [], []);
    assert m.status == s.(volume := s.volume + 10);
    var sh := ShowScreen(pv, m.status);
    var u := UpdateTick(pv, m.status);
    var k := |PlaylistIfMoved(pv.list, m.status).drawn| + 1;
    assert u.drawn[k] == Wrote(LblVolume, VolumeText(s.volume + 10));
    assert sh.drawn[k] == u.drawn[k];
    var d := PlayerClick(pv, s, Some(BtnVolume), row, touches).out.drawn;
    assert d == [RanModal(VolumeScreen)] + m.drawn + sh.drawn;
    assert d[1 + |m.drawn| + k] == sh.drawn[k];
  }
}
