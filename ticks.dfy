/**
 * ScreenPlayer's update run once per poll tick against the daemon's
 * successive snapshots.  What each tick redraws is tied to how the snapshots
 * change: the time and volume labels every tick, the play button once per
 * change of its icon, the playlist once per move of the playing index, the
 * title and artist once per signalled song change.
 */
module Ticks {
  import opened Mpd
  import opened Widgets
  import opened Reconcile

  /** The widget state after a run of ticks and everything drawn along the way. */
  datatype Trace = Trace(view: PlayerView, drawn: seq<Event>)

  /** One update per snapshot in `ss`, in order. */
  function Run(v: PlayerView, ss: seq<Status>): (r: Trace)
    decreases |ss|
    ensures r.view.list.selected == v.list.selected
    ensures ss == [] ==> r == Trace(v, [])
    ensures ss != [] ==> r.view.playIcon == IconFor(ss[|ss| - 1].control)
    ensures ss != [] ==> r.view.list.active == ss[|ss| - 1].playingIndex
  {
    if ss == [] then Trace(v, [])
    else
      var u := UpdateTick(v, ss[0]);
      var rest := Run(u.view, ss[1..]);
      assert |ss| > 1 ==> ss[1..][|ss| - 2] == ss[|ss| - 1];
      Trace(rest.view, u.drawn + rest.drawn)
  }

  /** How often the icon the control state calls for differs from the one before, starting from `icon`. */
  function Flips(icon: PlayIcon, ss: seq<Status>): nat
    decreases |ss|
  {
    if ss == [] then 0
    else (if IconFor(ss[0].control) != icon then 1 else 0) + Flips(IconFor(ss[0].control), ss[1..])
  }

  /** How often the playing index differs from the one before, starting from `active`. */
  function Moves(active: int, ss: seq<Status>): nat
    decreases |ss|
  {
    if ss == [] then 0
    else (if ss[0].playingIndex != active then 1 else 0) + Moves(ss[0].playingIndex, ss[1..])
  }

  /** How many snapshots carry the "song changed" signal. */
  function SongChanges(ss: seq<Status>): nat {
    if ss == [] then 0 else (if ss[0].songChanged then 1 else 0) + SongChanges(ss[1..])
  }

  lemma {:induction false} RunRedraws(v: PlayerView, ss: seq<Status>, t: Tag)
    ensures Redraws(Run(v, ss).drawn, t) ==
              if t == LblTime || t == LblVolume then |ss|
              else if t == BtnPlay then Flips(v.playIcon, ss)
              else if t == ListPlaying then Moves(v.list.active, ss)
              else if t == LblTrackTitle || t == LblTrackArtist then SongChanges(ss)
              else 0
    decreases |ss|
  {
    if ss != [] {
      var u := UpdateTick(v, ss[0]);
      UpdateRedraws(v, ss[0], t);
      RunRedraws(u.view, ss[1..], t);
      RedrawsConcat(u.drawn, Run(u.view, ss[1..]).drawn, t);
    }
  }

  /** While the control state stays the same, the play button is redrawn at most once: on the first tick, if at all. */
  lemma {:induction false} SteadyControlFlipsOnce(icon: PlayIcon, ss: seq<Status>)
    requires forall i :: 0 <= i < |ss| ==> ss[i].control == ss[0].control
    ensures Flips(icon, ss) <= 1
    ensures ss != [] && IconFor(ss[0].control) == icon ==> Flips(icon, ss) == 0
  {
    if ss != [] {
      SteadyFlipsNone(IconFor(ss[0].control), ss[1..], ss[0].control);
    }
  }

  lemma {:induction false} SteadyFlipsNone(icon: PlayIcon, ss: seq<Status>, control: string)
    requires IconFor(control) == icon
    requires forall i :: 0 <= i < |ss| ==> ss[i].control == control
    ensures Flips(icon, ss) == 0
    decreases |ss|
  {
    if ss != [] {
      SteadyFlipsNone(icon, ss[1..], control);
    }
  }

  /** Each tick redraws the play button at most once, so a run never redraws it more often than it has ticks. */
  lemma {:induction false} FlipsBounded(icon: PlayIcon, ss: seq<Status>)
    ensures Flips(icon, ss) <= |ss|
    decreases |ss|
  {
    if ss != [] {
      FlipsBounded(IconFor(ss[0].control), ss[1..]);
    }
  }
}
