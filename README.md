# Pi-Jukebox playback screen: reconciliation and dispatch

This project models the logic of `screen_player.py`, the playback screen of
a touch-screen MPD jukebox, with no graphics. Underneath the pygame code the
screen is a small state machine with two parts.

- **Reconciliation.** Once per poll tick the screen compares the daemon's
  status with what its widgets last showed and redraws only what moved:
  - the playlist;
  - the play/pause icon;
  - the title and artist labels.
  The time and volume labels are redrawn on every tick.
- **Dispatch.** A touch resolves to a widget tag. The tag picks one action:
  - navigate;
  - send one transport command;
  - play a playlist row;
  - open a modal screen.

The model has five modules:

- `Mpd` (`mpd.dfy`): the daemon as the screens see it.
  - `Status` is one snapshot: playlist, playing index, control state, volume, mute flag, the "song changed" signal, whether the status fetch succeeded, and the label texts.
  - `Command` covers every command the screens send.
  - `Apply` is the effect of a command on the snapshot.
  - `Client` is the shared object that holds the snapshot and a log of sent commands.
- `Widgets` (`widgets.dfy`):
  - widget tags and icons;
  - the draw log (`Display`), which records every `draw()` as one `Event`;
  - `Redraws`, which counts how often a widget appears in a log;
  - Python's `str()` of an int, used for the volume label.
- `Reconcile` (`reconcile.dfy`): each screen operation as a function of the widget state and the snapshot. The result gives:
  - the new widget state;
  - the snapshot after the commands;
  - the commands sent;
  - the draws, in order.

  The lemmas state what this amounts to: what is redrawn, which command is sent and which icon or index results.
- `Screens` (`screens.dfy`): the classes `Playlist`, `ScreenPlayer`, `ScreenVolume` and `ScreenCoverArt`.
  - Their fields change in place, as in the source.
  - Each method is proved to have exactly the effect of its `Reconcile` function: new widget fields, new snapshot, appended commands and appended draws.
- `Ticks` (`ticks.dfy`): `update` run over a sequence of snapshots. Over a run:
  - the play button is redrawn once per icon change;
  - the list is redrawn once per move of the playing index;
  - the title and artist labels are redrawn once per song change;
  - the two status labels are redrawn once per tick.

Inputs that stand for unseen code:

- The widget tag a touch resolves to is an input (`tag`). Hit-testing lives in the base widget classes.
- It is also an input which list row the list's own handler records (`row`).
- So is which percentage the slider's own handler records (`sliderAt`).
- The touches the volume screen receives while it is open are an input too (`touches`, one tag and slider percentage each).

## Model

| member | source | states |
|---|---|---|
| Reconcile.ShowPlaylist | screen_player.py:32-43 | afterwards the widget's list and active index equal the daemon's playlist and playing index; the selection is kept; nothing is sent; exactly one list redraw when the list or the index differed, none when both were equal |
| Reconcile.ShowPlaylistSettles | screen_player.py:32-43 | a second show_playlist against the same snapshot changes nothing and draws nothing |
| Reconcile.PlayIconStep | screen_player.py:87-92 | the icon ends as PAUSE when the control state is "play" and as PLAY otherwise; the button is redrawn exactly when the icon changed |
| Reconcile.PlaylistIfMoved | screen_player.py:83-84 | show_playlist runs only when the cached active index differs from the playing index; if it runs, the list mirrors the daemon and is drawn once; if not, the list is untouched and not drawn |
| Reconcile.UpdateTick | screen_player.py:81-96 | after update the active index equals the playing index and the icon matches the control state; the whole list mirrors the daemon when the index had moved and is unchanged otherwise; the "song changed" signal is consumed; nothing is sent |
| Reconcile.ShowScreen | screen_player.py:74-79 | show mirrors playlist and index in every case and sets the icon for the control state; its draws are update's, then the full render, then the second show_playlist's, then the scroll to the active row |
| Reconcile.AfterModal | screen_player.py:110-113 | after a modal screen the player shows itself in full against the snapshot the modal left: the list mirrors the daemon's playlist and playing index, the icon matches the control state, the selection is kept; the commands are the modal's; the draws start with the modal's run and its own draws and include the player's full render |
| Reconcile.AfterModalRedrawsListOnce | screen_player.py:110-113 | after a modal the list is redrawn exactly once more than the modal drew it when it differed from the daemon's, and not otherwise |
| Reconcile.TogglePlay | screen_player.py:114-122 | when playing it sends pause and sets the PLAY icon; otherwise it sends play and sets the PAUSE icon; one button redraw; the list is not touched |
| Reconcile.PlaySelected | screen_player.py:131-136 | with a selected row >= 0 it sends play_playlist_item(row + 1), makes the row active and redraws the list once; with a negative selection it sends nothing, changes nothing and draws nothing |
| Reconcile.PlayerClick | screen_player.py:98-136 | home returns 0 and library returns 1; every other tag returns nothing; at most one command per click except btn_volume, whose volume screen sends only volume commands, at most one per touch; prev and next send exactly "previous" or "next" and change nothing else; the play and list cases are as above; settings and volume are AfterModal, for volume with the volume screen's session (VolumeSession from a freshly opened volume screen); any other tag does nothing |
| Reconcile.FinishVolumeClick | screen_player.py:184-188 | the mute icon is the active variant exactly when the resulting volume is 0 or the daemon is muted; slider and closed flag are kept; one mute-button draw |
| Reconcile.VolumeClick | screen_player.py:169-188 | after every click the mute icon is the active variant exactly when the volume is 0 or the daemon is muted, and it is drawn once; up and down send a relative change of +10 and -10 and the slider follows the new volume; mute flips the mute flag; the slider case sends the slider's percentage; back closes the screen; other tags send nothing |
| Reconcile.VolumeSession | screen_player.py:128-129 | the volume screen's loop sends only volume commands, at most one per touch; it changes only the daemon's volume and mute flag; with no touch, or once closed, it does nothing; after at least one touch the mute icon matches the final volume and mute flag |
| Reconcile.HookTick | screen_player.py:214-227 | when the status fetch succeeds the icon follows the control state; otherwise it is kept; the "song changed" signal is consumed; nothing is sent |
| Reconcile.UpdateRedraws | screen_player.py:81-96 | one update redraws the list once if the playing index moved, the time and volume labels once each, the play button once if its icon flips, the title and artist once each if the song changed, and nothing else |
| Reconcile.UpdateSettles | screen_player.py:81-96 | a second update against the unchanged snapshot keeps every widget and redraws only the time and volume labels |
| Reconcile.ShowRedrawsListOnce | screen_player.py:74-84 | show redraws the list exactly once when the list or the index differed from the daemon's, and never otherwise |
| Reconcile.HookRedraws | screen_player.py:214-227 | the hook draws the time label, the volume label and the play button only when the status fetch succeeds (the button only on a flip); title and artist depend only on the "song changed" signal |
| Reconcile.ListTapConfirmed | screen_player.py:131-136 | tapping row i sends play_playlist_item(i + 1); when the daemon later reports i as the playing index, the next update keeps i active and does not redraw the list |
| Reconcile.TogglePlayConfirmed | screen_player.py:114-122 | once the daemon reports the state btn_play commanded, the next update does not redraw the play button: the optimistic icon is confirmed |
| Reconcile.ListTapOneBased | screen_player.py:131-136 | if the daemon instead reports i + 1, the next update moves the active row to i + 1 and redraws the list once |
| Reconcile.VolumeUpShown | screen_player.py:127-130 | opening the volume screen at volume v (0 <= v <= 90), pressing up once and then back sends one relative change of +10, and the player screen shown afterwards writes "Vol: v+10%" into its volume label |
| Mpd.Apply | screen_player.py:172-181 | volume commands keep the volume within 0..100, and a relative change within range moves it by exactly the delta; the mute switch flips the mute flag; volume_set with a percentage in range sets exactly that percentage and out-of-range values of either command saturate at 0 or 100; playback commands leave the snapshot as it is; every other field is kept |
| Mpd.Client.CurrentSongChanged | screen_player.py:94 | returns the "song changed" signal and clears it |
| Mpd.Client.Send | screen_player.py:117-126 | the command is appended to the log and applied to the snapshot |
| Widgets.IntToString | screen_player.py:86 | decimal text with a leading '-' exactly for negative values |
| Widgets.NatToStringRoundTrip | screen_player.py:86 | the decimal text of n reads back as n |
| Widgets.RedrawsConcat | screen_player.py:81-96 | redraws of two logs in a row add up |
| Screens.Playlist.constructor | screen_player.py:24-30 | the list starts empty, with no active and no selected row |
| Screens.Playlist.ShowPlaylist | screen_player.py:32-43 | the widget's fields and the draw log change exactly as Reconcile.ShowPlaylist says |
| Screens.ScreenPlayer.constructor | screen_player.py:57-72 | the play button starts with the PLAY image; the list's active index starts at the daemon's playing index |
| Screens.ScreenPlayer.Update | screen_player.py:81-96 | widgets, snapshot, command log and draw log change exactly as Reconcile.UpdateTick says |
| Screens.ScreenPlayer.Show | screen_player.py:74-79 | widgets, snapshot, command log and draw log change exactly as Reconcile.ShowScreen says |
| Screens.ScreenPlayer.OnClick | screen_player.py:98-136 | returned screen index, widgets, snapshot, commands and draws are exactly Reconcile.PlayerClick's |
| Screens.ScreenPlayer.ShowAfterSettings | screen_player.py:110-113 | the effect of Reconcile.AfterModal for the settings screen, which sends and draws nothing in this model |
| Screens.ScreenPlayer.ShowAfterVolume | screen_player.py:127-130 | a fresh volume screen runs its session, then the player shows itself: the effect of Reconcile.AfterModal with that session |
| Screens.ScreenPlayer.TogglePlay | screen_player.py:114-122 | the effect of Reconcile.TogglePlay |
| Screens.ScreenPlayer.PlaySelected | screen_player.py:131-136 | the effect of Reconcile.PlaySelected |
| Screens.ScreenVolume.constructor | screen_player.py:155-164 | the mute button starts with its plain image and the slider at the daemon's volume |
| Screens.ScreenVolume.Close | screen_player.py:182-183 | the modal is marked closed and nothing else changes |
| Screens.ScreenVolume.Show | screen_player.py:128-129 | the loop hands each touch to OnClick until back closes the screen; widgets, snapshot, commands and draws change exactly as Reconcile.VolumeSession says |
| Screens.ScreenVolume.OnClick | screen_player.py:169-188 | widgets, snapshot, commands and draws change exactly as Reconcile.VolumeClick says |
| Screens.ScreenCoverArt.constructor | screen_player.py:202 | the play button starts with the PLAY image |
| Screens.ScreenCoverArt.EventLoopHook | screen_player.py:214-227 | icon, snapshot and draws change exactly as Reconcile.HookTick says |
| Screens.DrawStatusLabels | screen_player.py:85-86 | the time label is drawn with "current/total", then the volume label with "Vol: n%" |
| Screens.ReconcilePlayButton | screen_player.py:87-92 | the icon and the redraw follow Reconcile.PlayIconStep |
| Screens.ReconcileSongLabels | screen_player.py:94-96 | the signal is consumed; title and artist are drawn exactly when it was set |
| Ticks.Run | screen_player.py:81-96 | after a run of updates the icon matches the last snapshot's control state and the active index equals its playing index; the selection is kept |
| Ticks.RunRedraws | screen_player.py:81-96 | over a run, the time and volume labels are drawn once per tick; the play button once per icon change; the list once per move of the playing index; title and artist once per signalled song change; nothing else |
| Ticks.SteadyControlFlipsOnce | screen_player.py:87-92 | while the control state stays the same, the play button is redrawn at most once, and never if the icon already matched |
| Ticks.SteadyFlipsNone | screen_player.py:87-92 | once the icon matches an unchanging control state, it is never redrawn |
| Ticks.FlipsBounded | screen_player.py:87-92 | the play button is redrawn at most once per tick |

## Left out

- Rendering (pygame surfaces, fonts, images, colours) and all geometry and layout, including the window-centring arithmetic with float division (screen_player.py:25-30, 52-68, 147-167, 202-212). A draw is one log entry.
- Hit-testing and the base classes `Screen`, `ScreenModal`, `ItemList`, `ButtonIcon`, `LabelText`, `Slider` (`interface_widgets` is not part of this model). The resolved tag is an input, and so are the row and percentage that the list's and the slider's own handlers record.
- The MPD protocol (`mpd_client` is not part of this model).
  - The daemon is a status record plus a command log.
  - `Apply` is an assumption about the daemon: volume clamped to 0..100, mute flips.
  - Playback commands (play, pause, previous, next, play item) take effect in the daemon and appear in a later snapshot.
  - The status fetch of the cover-art hook (`status_get()`) is the snapshot's `statusOk` flag.
- `ScreenSettings` (screen_player.py:111-112) is not part of this model. Its screen is one `RanModal` event that sends nothing and leaves the snapshot as it was, followed by `show()`.
- The event loop of `ScreenModal` is not part of this model. For the volume screen (screen_player.py:128-129) it is modelled as handing a given sequence of touches to `on_click` until `close()`; polling, timeouts and any drift in the daemon while the screen is open are not modelled.
- Screens.Playlist.constructor: the initial empty list and the -1 active and selected indices are assumed values of the base `ItemList.__init__`, which is not part of this model.
- The `show()` of the base `Screen` and the list's `show_item_active()` are one log entry each; their own drawing is unseen. The volume slider's `progress_percentage_set` is modelled as the field update only.
- The event loops that call `update` and `event_loop_hook` on a timer. `Ticks.Run` gives the sequence of snapshots directly.
- The dead local `yeys` (screen_player.py:115), the unused local `playing_nr` (screen_player.py:35), and the unused imports.
- Numbering of the playing index. The source compares `active_item_index` directly with the daemon's playing index (lines 39, 83), while it sends `play_playlist_item(selected + 1)`. The model keeps both as written and treats the daemon's index as counted the same way as the widget's.
  - The `+ 1` of screen_player.py:134 suggests that the daemon counts playlist positions from 1.
  - Reconcile.ListTapOneBased states what that reading would mean; Reconcile.ListTapConfirmed states the reading under which the optimistic index is confirmed without a redraw.
- Reconcile.PlaySelected: only a negative selection is rejected, as in the source (line 133). An out-of-range row is not checked here and is passed on to the daemon.
- Reconcile.UpdateTick: only the playing index is checked before `show_playlist` (line 83), as written. A changed playlist with an unchanged index is not mirrored by `update`; only `show`'s own call catches it.
- `btn_settings` opens a modal here, as the source does (lines 110-113). It is not a navigation result.
