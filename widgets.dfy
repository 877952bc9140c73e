/**
 * Widget identities, icons and the draw log.  Rendering itself is not
 * modelled: every `draw()` of a widget becomes one `Event` appended to the
 * log of a `Display`, so "what was redrawn" is a statement about that log.
 */
module Widgets {

  datatype Option<T> = None | Some(value: T)

  /** The tags of the widgets of the player, volume and cover-art screens. */
  datatype Tag =
    | BtnHome | BtnLibrary | BtnSettings
    | BtnPlay | BtnPrev | BtnNext | BtnVolume
    | LblTrackTitle | LblTrackArtist | LblTime | LblVolume
    | RctSplit | ListPlaying
    | BtnMute | BtnVolumeDown | BtnVolumeUp | SlideVolume | BtnBack

  datatype ScreenKind = PlayerScreen | SettingsScreen | VolumeScreen

  /** The image of the play button and of the mute button. */
  datatype PlayIcon = IcoPlay | IcoPause
  datatype MuteIcon = IcoVolumeMute | IcoVolumeMuteActive

  /** One entry of the draw log. */
  datatype Event =
    | Drew(tag: Tag)                    // a widget's draw()
    | Wrote(tag: Tag, text: string)     // a label's draw(text)
    | Rendered(screen: ScreenKind)      // the full pass of the base Screen.show()
    | ScrolledToActive                  // the playlist's show_item_active()
    | RanModal(screen: ScreenKind)      // a modal screen's show(), which runs its own loop

  predicate Touches(e: Event, t: Tag) {
    (e.Drew? || e.Wrote?) && e.tag == t
  }

  /** How many times the widget tagged `t` is drawn in `es`. */
  function Redraws(es: seq<Event>, t: Tag): (n: nat)
    ensures n <= |es|
    ensures n == 0 <==> forall i :: 0 <= i < |es| ==> !Touches(es[i], t)
  {
    if es == [] then 0
    else
      var rest := Redraws(es[1..], t);
      assert forall i :: 1 <= i < |es| ==> es[i] == es[1..][i - 1];
      (if Touches(es[0], t) then 1 else 0) + rest
  }

  lemma {:induction false} RedrawsConcat(a: seq<Event>, b: seq<Event>, t: Tag)
    ensures Redraws(a + b, t) == Redraws(a, t) + Redraws(b, t)
  {
    if a == [] {
      assert a + b == b;
    } else {
      assert (a + b)[1..] == a[1..] + b;
      RedrawsConcat(a[1..], b, t);
    }
  }

  /** Stated once, so that proofs about the log need not rediscover it. */
  lemma AppendAssoc<T>(a: seq<T>, b: seq<T>, c: seq<T>)
    ensures a + (b + c) == a + b + c
  {
  }

  // Decimal text, as Python's str() renders an int.

  function Digit(d: nat): (c: char)
    requires d < 10
    ensures '0' <= c <= '9' && c as int - '0' as int == d
  {
    "0123456789"[d]
  }

  function NatToString(n: nat): (s: string)
    ensures |s| >= 1
    ensures forall i :: 0 <= i < |s| ==> '0' <= s[i] <= '9'
    ensures s[0] == '0' ==> n == 0
  {
    if n < 10 then [Digit(n)] else NatToString(n / 10) + [Digit(n % 10)]
  }

  /** The value of a string of decimal digits. */
  function DecimalValue(s: string): nat
    requires forall i :: 0 <= i < |s| ==> '0' <= s[i] <= '9'
  {
    if s == [] then 0
    else DecimalValue(s[..|s| - 1]) * 10 + (s[|s| - 1] as int - '0' as int)
  }

  lemma {:induction false} NatToStringRoundTrip(n: nat)
    ensures DecimalValue(NatToString(n)) == n
  {
    if n >= 10 {
      var s := NatToString(n);
      assert s[..|s| - 1] == NatToString(n / 10);
      NatToStringRoundTrip(n / 10);
    } else {
      var s := NatToString(n);
      assert s[..|s| - 1] == [];
    }
  }

  function IntToString(v: int): (s: string)
    ensures |s| >= 1 && (v < 0 <==> s[0] == '-')
    ensures v >= 0 ==> s == NatToString(v)
    ensures v < 0 ==> s[1..] == NatToString(-v)
  {
    if v < 0 then "-" + NatToString(-v) else NatToString(v)
  }

  /** The text of the time label: `time_current + '/' + time_total`. */
  function TimeText(current: string, total: string): string {
    current + "/" + total
  }

  /** The text of the volume label: `'Vol: ' + str(volume) + '%'`. */
  function VolumeText(volume: int): string {
    "Vol: " + IntToString(volume) + "%"
  }

  /** The drawing surface, reduced to the log of what was drawn on it. */
  class Display {
    var log: seq<Event>

    constructor ()
      ensures log == []
    {
      log := [];
    }

    method Emit(e: Event)
      modifies this
      ensures log == old(log) + [e]
    {
      log := log + [e];
    }
  }
}
