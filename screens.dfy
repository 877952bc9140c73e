/**
 * The screens of screen_player.py as objects that change their widgets in
 * place, send commands to the shared daemon client and draw on the shared
 * display.  Every method is proved to have exactly the effect that the
 * matching function of module Reconcile describes.
 */
module Screens {
  import opened Mpd
  import opened Widgets
  import opened Reconcile

  /** The playlist widget (tag `list_playing`). */
  class Playlist {
    var items: seq<string>
    var activeItemIndex: int
    var itemSelectedIndex: int
    const mpd: Client
    const display: Display

    function View(): ListView
      reads this
    {
      ListView(items, activeItemIndex, itemSelectedIndex)
    }

    /** An item list starts empty, with no active and no selected row. */
    constructor (mpd: Client, display: Display)
      ensures this.mpd == mpd && this.display == display
      ensures View() == ListView([], -1, -1)
    {
      this.mpd, this.display := mpd, display;
      items, activeItemIndex, itemSelectedIndex := [], -1, -1;
    }

    /** Copies the daemon's playlist and playing index where they differ; one draw if either did. */
    method ShowPlaylist()
      modifies this, display
      ensures View() == Reconcile.ShowPlaylist(old(View()), mpd.status).view
      ensures display.log == old(display.log) + Reconcile.ShowPlaylist(old(View()), mpd.status).drawn
    {
      var updated := false;
      if items != mpd.status.playlist {
        items := mpd.status.playlist;
        updated := true;
      }
      if activeItemIndex != mpd.status.playingIndex {
        activeItemIndex := mpd.status.playingIndex;
        updated := true;
      }
      if updated {
        display.Emit(Drew(ListPlaying));
      }
    }
  }

  /** The playback screen: transport buttons, labels and the playlist. */
  class ScreenPlayer {
    const mpd: Client
    const display: Display
    const playlist: Playlist
    var playIcon: PlayIcon

    ghost predicate Valid() {
      playlist.mpd == mpd && playlist.display == display
    }

    function View(): PlayerView
      reads this, playlist
    {
      PlayerView(playlist.View(), playIcon)
    }

    /** The play button starts with the PLAY image; the list starts at the daemon's playing index. */
    constructor (mpd: Client, display: Display)
      ensures Valid() && fresh(playlist)
      ensures this.mpd == mpd && this.display == display
      ensures View() == PlayerView(ListView([], mpd.status.playingIndex, -1), IcoPlay)
    {
      this.mpd, this.display := mpd, display;
      playlist := new Playlist(mpd, display);
      playIcon := IcoPlay;
      new;
      playlist.activeItemIndex := mpd.status.playingIndex;
    }

    /** One reconciliation pass against the daemon's snapshot. */
    method Update()
      requires Valid()
      modifies this, playlist, display, mpd
      ensures var r := UpdateTick(old(View()), old(mpd.status));
              View() == r.view && mpd.status == r.status && mpd.sent == old(mpd.sent) &&
              display.log == old(display.log) + r.drawn
    {
      ghost var v0, s0, log0 := View(), mpd.status, display.log;
      if playlist.activeItemIndex != mpd.status.playingIndex {
        playlist.ShowPlaylist();
      } else {
        assert display.log == log0 + [];
      }
      ghost var p := PlaylistIfMoved(v0.list, s0).drawn;
      DrawStatusLabels(mpd, display);
      ghost var step := PlayIconStep(v0.playIcon, s0.control).1;
      playIcon := ReconcilePlayButton(playIcon, mpd.status.control, display);
      ReconcileSongLabels(mpd, display);
      AppendAssoc(log0, p, StatusLabels(s0));
      AppendAssoc(log0, p + StatusLabels(s0), step);
      AppendAssoc(log0, p + StatusLabels(s0) + step, SongLabels(s0));
    }

    /** The full pass: update, the base screen's render, show_playlist, then scroll to the active row. */
    method Show()
      requires Valid()
      modifies this, playlist, display, mpd
      ensures var r := ShowScreen(old(View()), old(mpd.status));
              View() == r.view && mpd.status == r.status && mpd.sent == old(mpd.sent) &&
              display.log == old(display.log) + r.drawn
    {
      ghost var v0, s0, log0 := View(), mpd.status, display.log;
      Update();
      ghost var u := UpdateTick(v0, s0);
      display.Emit(Rendered(PlayerScreen));
      playlist.ShowPlaylist();
      display.Emit(ScrolledToActive);
      ghost var p := Reconcile.ShowPlaylist(u.view.list, s0).drawn;
      AppendAssoc(log0, u.drawn, [Rendered(PlayerScreen)]);
      AppendAssoc(log0, u.drawn + [Rendered(PlayerScreen)], p);
      AppendAssoc(log0, u.drawn + [Rendered(PlayerScreen)] + p, [ScrolledToActive]);
    }

    /**
     * Dispatch on the tag the touch resolved to.  `row` is what the list's own
     * handler stores in `item_selected_index` when the touch lands on the list;
     * `touches` are what the volume screen receives while it is open.
     */
    method OnClick(tag: Option<Tag>, row: int, touches: seq<Touch>) returns (screen: Option<nat>)
      requires Valid()
      modifies this, playlist, display, mpd
      ensures var r := PlayerClick(old(View()), old(mpd.status), tag, row, touches);
              screen == r.screen && View() == r.out.view && mpd.status == r.out.status &&
              mpd.sent == old(mpd.sent) + r.out.sent && display.log == old(display.log) + r.out.drawn
    {
      screen := None;
      match tag {
        case Some(BtnHome) => screen := Some(0);
        case Some(BtnLibrary) => screen := Some(1);
        case Some(BtnSettings) => ShowAfterSettings();
        case Some(BtnPlay) => TogglePlay();
        case Some(BtnPrev) => mpd.Send(ControlSet(Previous));
        case Some(BtnNext) => mpd.Send(ControlSet(Next));
        case Some(BtnVolume) => ShowAfterVolume(touches);
        case Some(ListPlaying) =>
          playlist.itemSelectedIndex := row;  // what the list's own handler did inside Screen.on_click
          PlaySelected();
        case _ =>
      }
    }

    /**
     * btn_settings: the settings screen runs its own loop, which is not part
     * of this model, and then the player screen shows itself in full.
     */
    method ShowAfterSettings()
      requires Valid()
      modifies this, playlist, display, mpd
      ensures var r := AfterModal(SettingsScreen, old(View()), old(mpd.status), [], []);
              View() == r.view && mpd.status == r.status && mpd.sent == old(mpd.sent) + r.sent &&
              display.log == old(display.log) + r.drawn
    {
      ghost var v0, s0, log0 := View(), mpd.status, display.log;
      display.Emit(RanModal(SettingsScreen));
      Show();
      assert [RanModal(SettingsScreen)] + [] == [RanModal(SettingsScreen)];
      AppendAssoc(log0, [RanModal(SettingsScreen)], ShowScreen(v0, s0).drawn);
    }

    /** btn_volume: a fresh volume screen takes `touches` until it closes, then the player screen shows itself. */
    method ShowAfterVolume(touches: seq<Touch>)
      requires Valid()
      modifies this, playlist, display, mpd
      ensures var m := VolumeSession(OpenVolume(old(mpd.status)), old(mpd.status), touches);
              var r := AfterModal(VolumeScreen, old(View()), m.status, m.sent, m.drawn);
              View() == r.view && mpd.status == r.status && mpd.sent == old(mpd.sent) + r.sent &&
              display.log == old(display.log) + r.drawn
    {
      ghost var v0, s0, log0 := View(), mpd.status, display.log;
      var screenVolume := new ScreenVolume(mpd, display);
      screenVolume.Show(touches);
      ghost var m := VolumeSession(OpenVolume(s0), s0, touches);
      assert View() == v0;
      Show();
      AppendAssoc(log0, [RanModal(VolumeScreen)], m.drawn);
      AppendAssoc(log0, [RanModal(VolumeScreen)] + m.drawn, ShowScreen(v0, m.status).drawn);
    }

    method TogglePlay()
      modifies this, display, mpd
      ensures var r := Reconcile.TogglePlay(old(View()), old(mpd.status));
              View() == r.view && mpd.status == r.status && mpd.sent == old(mpd.sent) + r.sent &&
              display.log == old(display.log) + r.drawn
    {
      if mpd.status.control == "play" {
        mpd.Send(ControlSet(Pause));
        playIcon := IcoPlay;
      } else {
        mpd.Send(ControlSet(Play));
        playIcon := IcoPause;
      }
      display.Emit(Drew(BtnPlay));
    }

    method PlaySelected()
      requires Valid()
      modifies playlist, display, mpd
      ensures var r := Reconcile.PlaySelected(old(View()), old(mpd.status));
              View() == r.view && mpd.status == r.status && mpd.sent == old(mpd.sent) + r.sent &&
              display.log == old(display.log) + r.drawn
    {
      var selectedIndex := playlist.itemSelectedIndex;
      if selectedIndex >= 0 {
        mpd.Send(PlayItem(selectedIndex + 1));
        playlist.activeItemIndex := selectedIndex;
        display.Emit(Drew(ListPlaying));
      }
    }
  }

  /** The volume modal: mute, down and up buttons, a slider and a back button. */
  class ScreenVolume {
    const mpd: Client
    const display: Display
    var muteIcon: MuteIcon
    var slider: int
    var closed: bool

    function View(): VolumeView
      reads this
    {
      VolumeView(muteIcon, slider, closed)
    }

    /** The mute button starts with its plain image; the slider starts at the daemon's volume. */
    constructor (mpd: Client, display: Display)
      ensures this.mpd == mpd && this.display == display
      ensures View() == VolumeView(IcoVolumeMute, mpd.status.volume, false)
    {
      this.mpd, this.display := mpd, display;
      muteIcon, slider, closed := IcoVolumeMute, mpd.status.volume, false;
    }

    /** Ends the modal's loop. */
    method Close()
      modifies this
      ensures View() == old(View()).(closed := true)
    {
      closed := true;
    }

    /** show(): the modal draws itself, then passes each touch to on_click until back closes it. */
    method Show(touches: seq<Touch>)
      modifies this, display, mpd
      ensures var m := VolumeSession(old(View()), old(mpd.status), touches);
              View() == m.view && mpd.status == m.status && mpd.sent == old(mpd.sent) + m.sent &&
              display.log == old(display.log) + [RanModal(VolumeScreen)] + m.drawn
    {
      display.Emit(RanModal(VolumeScreen));
      ghost var m := VolumeSession(View(), mpd.status, touches);
      ghost var sent0, log0 := mpd.sent, display.log;
      var i := 0;
      while i < |touches| && !closed
        invariant 0 <= i <= |touches|
        invariant var rest := VolumeSession(View(), mpd.status, touches[i..]);
                  rest.view == m.view && rest.status == m.status &&
                  sent0 + m.sent == mpd.sent + rest.sent && log0 + m.drawn == display.log + rest.drawn
        decreases |touches| - i
      {
        assert touches[i..][0] == touches[i] && touches[i..][1..] == touches[i + 1..];
        ghost var c := VolumeClick(View(), mpd.status, touches[i].tag, touches[i].sliderAt);
        ghost var sentB, logB := mpd.sent, display.log;
        OnClick(touches[i].tag, touches[i].sliderAt);
        i := i + 1;
        ghost var rest := VolumeSession(View(), mpd.status, touches[i..]);
        AppendAssoc(sentB, c.sent, rest.sent);
        AppendAssoc(logB, c.drawn, rest.drawn);
      }
      if i == |touches| {
        assert touches[i..] == [];
      }
    }

    /** `sliderAt` is what the slider's own handler records when the touch lands on it. */
    method OnClick(tag: Option<Tag>, sliderAt: int)
      modifies this, display, mpd
      ensures var r := VolumeClick(old(View()), old(mpd.status), tag, sliderAt);
              View() == r.view && mpd.status == r.status && mpd.sent == old(mpd.sent) + r.sent &&
              display.log == old(display.log) + r.drawn
    {
      if tag == Some(BtnMute) {
        mpd.Send(MuteSwitch);
        slider := mpd.status.volume;
      } else if tag == Some(BtnVolumeDown) {
        mpd.Send(VolumeRelative(-10));
        slider := mpd.status.volume;
      } else if tag == Some(BtnVolumeUp) {
        mpd.Send(VolumeRelative(10));
        slider := mpd.status.volume;
      } else if tag == Some(SlideVolume) {
        slider := sliderAt;
        mpd.Send(VolumeSet(slider));
      } else if tag == Some(BtnBack) {
        Close();
      }
      if mpd.status.volume == 0 || mpd.status.muted {
        muteIcon := IcoVolumeMuteActive;
      } else {
        muteIcon := IcoVolumeMute;
      }
      display.Emit(Drew(BtnMute));
    }
  }

  /** The "Now playing" modal with its own poll hook. */
  class ScreenCoverArt {
    const mpd: Client
    const display: Display
    var playIcon: PlayIcon

    constructor (mpd: Client, display: Display)
      ensures this.mpd == mpd && this.display == display && playIcon == IcoPlay
    {
      this.mpd, this.display := mpd, display;
      playIcon := IcoPlay;
    }

    /** One tick of the modal's own loop. */
    method EventLoopHook()
      modifies this, display, mpd
      ensures var r := HookTick(old(playIcon), old(mpd.status));
              playIcon == r.view && mpd.status == r.status && mpd.sent == old(mpd.sent) &&
              display.log == old(display.log) + r.drawn
    {
      if mpd.status.statusOk {
        DrawStatusLabels(mpd, display);
        playIcon := ReconcilePlayButton(playIcon, mpd.status.control, display);
      }
      ReconcileSongLabels(mpd, display);
    }
  }

  // The steps that ScreenPlayer.update and ScreenCoverArt.event_loop_hook share.

  /** Draws the time and volume labels from the snapshot. */
  method DrawStatusLabels(mpd: Client, display: Display)
    modifies display
    ensures display.log == old(display.log) + StatusLabels(mpd.status)
  {
    display.Emit(Wrote(LblTime, TimeText(mpd.status.timeCurrent, mpd.status.timeTotal)));
    display.Emit(Wrote(LblVolume, VolumeText(mpd.status.volume)));
  }

  /** The play button's image rule; `icon` is its image file before, the result after. */
  method ReconcilePlayButton(icon: PlayIcon, control: string, display: Display) returns (image: PlayIcon)
    modifies display
    ensures image == PlayIconStep(icon, control).0
    ensures display.log == old(display.log) + PlayIconStep(icon, control).1
  {
    image := icon;
    if image != IcoPause && control == "play" {
      image := IcoPause;
      display.Emit(Drew(BtnPlay));
    } else if image == IcoPause && control != "play" {
      image := IcoPlay;
      display.Emit(Drew(BtnPlay));
    }
  }

  /** Asks the daemon whether the song changed, and if so draws the title and artist labels. */
  method ReconcileSongLabels(mpd: Client, display: Display)
    modifies mpd, display
    ensures mpd.status == old(mpd.status).(songChanged := false) && mpd.sent == old(mpd.sent)
    ensures display.log == old(display.log) + SongLabels(old(mpd.status))
  {
    var changed := mpd.CurrentSongChanged();
    if changed {
      display.Emit(Wrote(LblTrackTitle, mpd.status.trackName));
      display.Emit(Wrote(LblTrackArtist, mpd.status.trackArtist));
    }
  }
}
