/**
 * The caption renderer of public/content/caption.js: the module state
 * `captionsData`, `currentSubtitle`, `subBox` and `checkInterval`, the
 * `startCaptions` ticker, `stopCaptions`, the pause and play listeners and the
 * two event listeners that start captions.
 *
 * Timers are explicit steps: `Tick` is the running interval firing at playback
 * time `t`, and `FadeTimer` is a 300 ms timer of `hideSubtitle` firing. Each
 * `setInterval` returns a fresh positive id; `running` holds the ids not yet
 * cleared. `document.querySelector("video")` is the `videoFound` input.
 */
module CaptionPlayer {
  import opened Wrappers
  import opened Captions

  /**
   * What `startCaptions` is handed: an array of captions, or some other value,
   * for which `longEnough` says whether `captions && captions.length > 0`
   * holds (a non-empty string, say; `false` for `undefined`).
   */
  datatype Subs = NonArray(longEnough: bool) | CaptionArray(items: seq<Caption>)

  /** The event listeners' guard `captions && captions.length > 0`. */
  predicate PassesGuard(s: Subs)
  {
    match s
    case NonArray(longEnough) => longEnough
    case CaptionArray(items) => |items| > 0
  }

  /** `Array.isArray(subs) && subs.length !== 0`: what lets `startCaptions` go on. */
  predicate Startable(s: Subs)
  {
    s.CaptionArray? && |s.items| > 0
  }

  /** The subtitle box: its text, `display` is `"block"`, `opacity` is `"1"`. */
  datatype SubBox = SubBox(text: string, displayed: bool, solid: bool)

  /** The box can be seen: displayed and solid. */
  predicate Visible(b: Option<SubBox>)
  {
    b.Some? && b.value.displayed && b.value.solid
  }

  /** `ensureSubtitleBox`: an existing box is kept; a new one is hidden and transparent. */
  function EnsureBox(b: Option<SubBox>): (r: Option<SubBox>)
    ensures r.Some?
    ensures b.Some? ==> r == b
    ensures b.None? ==> !Visible(r)
  {
    if b.Some? then b else Some(SubBox("", false, false))
  }

  /** `showSubtitle(text)`: nothing without a box. */
  function ShowBox(b: Option<SubBox>, text: string): (r: Option<SubBox>)
    ensures b.None? ==> r.None?
    ensures b.Some? ==> Visible(r) && r.value.text == text
  {
    if b.None? then None else Some(SubBox(text, true, true))
  }

  /** `hideSubtitle()`'s immediate effect: opacity `"0"`. */
  function HideBox(b: Option<SubBox>): (r: Option<SubBox>)
    ensures b.None? ==> r.None?
    ensures b.Some? ==> r.Some? && !Visible(r) && r.value.text == b.value.text && r.value.displayed == b.value.displayed
  {
    if b.None? then None else Some(b.value.(solid := false))
  }

  /** The 300 ms timer of `hideSubtitle`: a box still transparent is no longer displayed. */
  function FadeBox(b: Option<SubBox>): (r: Option<SubBox>)
    ensures Visible(b) ==> r == b
    ensures b.Some? && !b.value.solid ==> r == Some(b.value.(displayed := false))
  {
    if b.Some? && !b.value.solid then Some(b.value.(displayed := false)) else b
  }

  /** What one tick of the interval does to the box. */
  datatype TickAction = Keep | Show(text: string) | Hide

  /** Lines 89-97: show a matched text that differs from `currentSubtitle`; hide when nothing matches and something is shown. */
  function TickDecision(caps: seq<Caption>, current: Option<string>, t: real): TickAction
  {
    match FirstMatch(caps, t)
    case Some(i) => if Some(caps[i].text) != current then Show(caps[i].text) else Keep
    case None => if current.Some? then Hide else Keep
  }

  /** `currentSubtitle` after the action. */
  function After(current: Option<string>, a: TickAction): Option<string>
  {
    match a
    case Keep => current
    case Show(text) => Some(text)
    case Hide => None
  }

  /**
   * After a tick, `currentSubtitle` is the text of the first caption covering
   * `t`, or `null` when none does; the tick changes nothing exactly when that
   * is already so, shows only a text that differs, and hides only when nothing
   * covers `t` and a text was current.
   */
  lemma TickTracksTime(caps: seq<Caption>, current: Option<string>, t: real)
    ensures After(current, TickDecision(caps, current, t)) == TextAt(caps, t)
    ensures TickDecision(caps, current, t) == Keep <==> current == TextAt(caps, t)
    ensures TickDecision(caps, current, t).Show? ==>
      TextAt(caps, t) == Some(TickDecision(caps, current, t).text) && current != TextAt(caps, t)
    ensures TickDecision(caps, current, t) == Hide <==>
      (forall j :: 0 <= j < |caps| ==> !Covers(caps[j], t)) && current.Some?
  {
  }

  /** A second tick at the same time does nothing. */
  lemma TickSettles(caps: seq<Caption>, current: Option<string>, t: real)
    ensures TickDecision(caps, After(current, TickDecision(caps, current, t)), t) == Keep
  {
    TickTracksTime(caps, current, t);
    TickTracksTime(caps, After(current, TickDecision(caps, current, t)), t);
  }

  class Player {
    var captionsData: Subs
    var currentSubtitle: Option<string>
    var subBox: Option<SubBox>
    /** `checkInterval`: the id of the last interval created, never reset to `null`. */
    var checkInterval: Option<nat>
    /** The intervals created and not cleared. */
    var running: set<nat>
    var nextId: nat
    /** `window.__farsiCachedCaptions` as this script writes it. */
    var cachedCaptions: Option<seq<Caption>>

    /** Every running interval is the last one created, so at most one ticks (`AtMostOneRunning`). */
    predicate Valid()
      reads this
    {
      && nextId > 0
      && (checkInterval.Some? ==> 0 < checkInterval.value < nextId)
      && (checkInterval.None? ==> running == {})
      && (checkInterval.Some? ==> running <= {checkInterval.value})
    }

    constructor ()
      ensures Valid()
      ensures captionsData == CaptionArray([]) && currentSubtitle.None? && subBox.None?
      ensures checkInterval.None? && running == {} && cachedCaptions.None?
    {
      captionsData := CaptionArray([]);
      currentSubtitle := None;
      subBox := None;
      checkInterval := None;
      running := {};
      nextId := 1;
      cachedCaptions := None;
    }

    /** Whether the box is on screen. */
    function BoxVisible(): bool
      reads this
    {
      Visible(subBox)
    }

    /**
     * The running interval fires at time `t`. It scans `captionsData` as it is
     * now, not the list it was started with; when that is no array, the scan
     * throws and nothing changes.
     */
    method Tick(t: real)
      modifies this
      ensures captionsData == old(captionsData) && cachedCaptions == old(cachedCaptions)
      ensures checkInterval == old(checkInterval) && running == old(running) && nextId == old(nextId)
      ensures running != {} && captionsData.CaptionArray? ==>
        var a := TickDecision(captionsData.items, old(currentSubtitle), t);
        && currentSubtitle == After(old(currentSubtitle), a)
        && subBox == (match a
                      case Keep => old(subBox)
                      case Show(text) => ShowBox(old(subBox), text)
                      case Hide => HideBox(old(subBox)))
      ensures running == {} || captionsData.NonArray? ==>
        currentSubtitle == old(currentSubtitle) && subBox == old(subBox)
    {
      if running == {} || captionsData.NonArray? {
        return;
      }
      var caps := captionsData.items;
      var seg := FirstMatch(caps, t);
      if seg.Some? && Some(caps[seg.value].text) != currentSubtitle {
        currentSubtitle := Some(caps[seg.value].text);
        subBox := ShowBox(subBox, caps[seg.value].text);
      } else if seg.None? && currentSubtitle.Some? {
        currentSubtitle := None;
        subBox := HideBox(subBox);
      }
    }

    /** A 300 ms timer of `hideSubtitle` fires. */
    method FadeTimer()
      modifies this
      ensures subBox == FadeBox(old(subBox))
      ensures captionsData == old(captionsData) && currentSubtitle == old(currentSubtitle) && cachedCaptions == old(cachedCaptions)
      ensures checkInterval == old(checkInterval) && running == old(running) && nextId == old(nextId)
    {
      subBox := FadeBox(subBox);
    }

    /**
     * `startCaptions(subs)`: `captionsData` is overwritten whatever `subs` is;
     * a non-array or an empty list stops there. Otherwise the box is made, and
     * with a video the previous interval is cleared, a new one started and the
     * list cached.
     */
    method StartCaptions(subs: Subs, videoFound: bool)
      requires Valid()
      modifies this
      ensures Valid()
      ensures captionsData == subs && currentSubtitle == old(currentSubtitle)
      ensures !Startable(subs) ==>
        && subBox == old(subBox) && cachedCaptions == old(cachedCaptions)
        && checkInterval == old(checkInterval) && running == old(running) && nextId == old(nextId)
      ensures Startable(subs) ==> subBox == EnsureBox(old(subBox))
      ensures Startable(subs) && !videoFound ==>
        && cachedCaptions == old(cachedCaptions)
        && checkInterval == old(checkInterval) && running == old(running) && nextId == old(nextId)
      ensures Startable(subs) && videoFound ==>
        && checkInterval == Some(old(nextId)) && running == {old(nextId)} && nextId == old(nextId) + 1
        && cachedCaptions == Some(subs.items)
    {
      captionsData := subs;
      if !Startable(subs) {
        return;
      }
      subBox := EnsureBox(subBox);
      if !videoFound {
        return;
      }
      if checkInterval.Some? {
        running := running - {checkInterval.value};
      }
      checkInterval := Some(nextId);
      running := running + {nextId};
      nextId := nextId + 1;
      cachedCaptions := Some(subs.items);
    }

    /** `stopCaptions()`: the ticker is cleared, the box fades, `currentSubtitle` is `null`. */
    method StopCaptions()
      requires Valid()
      modifies this
      ensures Valid()
      ensures running == {} && currentSubtitle.None? && subBox == HideBox(old(subBox))
      ensures checkInterval == old(checkInterval) && nextId == old(nextId)
      ensures captionsData == old(captionsData) && cachedCaptions == old(cachedCaptions)
    {
      if checkInterval.Some? {
        running := running - {checkInterval.value};
      }
      subBox := HideBox(subBox);
      currentSubtitle := None;
    }

    /** The video's `pause` listener: the box fades; `currentSubtitle` is kept. */
    method OnPause()
      modifies this
      ensures subBox == HideBox(old(subBox))
      ensures captionsData == old(captionsData) && currentSubtitle == old(currentSubtitle) && cachedCaptions == old(cachedCaptions)
      ensures checkInterval == old(checkInterval) && running == old(running) && nextId == old(nextId)
    {
      subBox := HideBox(subBox);
    }

    /** `OnPause` as evidently intended: the box fades and `currentSubtitle` is forgotten, so the next tick shows the caption again. */
    method OnPauseForgetting()
      modifies this
      ensures subBox == HideBox(old(subBox)) && currentSubtitle.None?
      ensures captionsData == old(captionsData) && cachedCaptions == old(cachedCaptions)
      ensures checkInterval == old(checkInterval) && running == old(running) && nextId == old(nextId)
    {
      subBox := HideBox(subBox);
      currentSubtitle := None;
    }

    /** The video's `play` listener: captions restart from a non-empty cache. */
    method OnPlay(videoFound: bool)
      requires Valid()
      modifies this
      ensures Valid()
      ensures currentSubtitle == old(currentSubtitle)
      ensures cachedCaptions.None? || |cachedCaptions.value| == 0 ==>
        && captionsData == old(captionsData) && subBox == old(subBox) && cachedCaptions == old(cachedCaptions)
        && checkInterval == old(checkInterval) && running == old(running) && nextId == old(nextId)
      ensures old(cachedCaptions).Some? && |old(cachedCaptions).value| > 0 ==>
        && captionsData == CaptionArray(old(cachedCaptions).value) && subBox == EnsureBox(old(subBox))
        && cachedCaptions == old(cachedCaptions)
        && (videoFound ==> running == {old(nextId)} && checkInterval == Some(old(nextId)))
        && (!videoFound ==> running == old(running) && checkInterval == old(checkInterval))
    {
      if cachedCaptions.Some? && |cachedCaptions.value| > 0 {
        StartCaptions(CaptionArray(cachedCaptions.value), videoFound);
      }
    }

    /** The `farsi-show-timed` listener: captions start only when the guard holds. */
    method OnShowTimed(captions: Subs, videoFound: bool)
      requires Valid()
      modifies this
      ensures Valid()
      ensures !PassesGuard(captions) ==>
        && captionsData == old(captionsData) && currentSubtitle == old(currentSubtitle)
        && subBox == old(subBox) && cachedCaptions == old(cachedCaptions)
        && checkInterval == old(checkInterval) && running == old(running) && nextId == old(nextId)
      ensures PassesGuard(captions) ==> captionsData == captions && currentSubtitle == old(currentSubtitle)
      ensures PassesGuard(captions) && !Startable(captions) ==>
        && subBox == old(subBox) && cachedCaptions == old(cachedCaptions)
        && checkInterval == old(checkInterval) && running == old(running) && nextId == old(nextId)
      ensures Startable(captions) ==> subBox == EnsureBox(old(subBox))
      ensures Startable(captions) && !videoFound ==>
        && cachedCaptions == old(cachedCaptions)
        && checkInterval == old(checkInterval) && running == old(running) && nextId == old(nextId)
      ensures Startable(captions) && videoFound ==>
        && checkInterval == Some(old(nextId)) && running == {old(nextId)} && nextId == old(nextId) + 1
        && cachedCaptions == Some(captions.items)
    {
      if PassesGuard(captions) {
        StartCaptions(captions, videoFound);
      }
    }

    /**
     * The window `message` listener. `tagged` is `ev.data.__farsi_ext` being
     * truthy and `ev.data.payload.type` being `"SHOW_TIMED_SUBS"`.
     */
    method OnWindowMessage(tagged: bool, captions: Subs, videoFound: bool)
      requires Valid()
      modifies this
      ensures Valid()
      ensures !(tagged && PassesGuard(captions)) ==>
        && captionsData == old(captionsData) && currentSubtitle == old(currentSubtitle)
        && subBox == old(subBox) && cachedCaptions == old(cachedCaptions)
        && checkInterval == old(checkInterval) && running == old(running) && nextId == old(nextId)
      ensures tagged && PassesGuard(captions) ==> captionsData == captions && currentSubtitle == old(currentSubtitle)
      ensures tagged && PassesGuard(captions) && !Startable(captions) ==>
        && subBox == old(subBox) && cachedCaptions == old(cachedCaptions)
        && checkInterval == old(checkInterval) && running == old(running) && nextId == old(nextId)
      ensures tagged && Startable(captions) ==> subBox == EnsureBox(old(subBox))
      ensures tagged && Startable(captions) && !videoFound ==>
        && cachedCaptions == old(cachedCaptions)
        && checkInterval == old(checkInterval) && running == old(running) && nextId == old(nextId)
      ensures tagged && Startable(captions) && videoFound ==>
        && checkInterval == Some(old(nextId)) && running == {old(nextId)} && nextId == old(nextId) + 1
        && cachedCaptions == Some(captions.items)
    {
      if tagged && PassesGuard(captions) {
        StartCaptions(captions, videoFound);
      }
    }
  }

  /**
   * Pausing and resuming within one caption leaves it hidden: the pause fades
   * the box but keeps `currentSubtitle`, so the tick after `play` finds the
   * same text and does not show it again.
   */
  method PauseResumeAsWritten() returns (visible: bool)
    ensures !visible
  {
    var p := new Player();
    var caps := [Caption(0.0, 10.0, "salam")];
    p.StartCaptions(CaptionArray(caps), true);
    p.Tick(1.0);
    assert p.BoxVisible();
    p.OnPause();
    p.FadeTimer();
    p.OnPlay(true);
    p.Tick(2.0);
    visible := p.BoxVisible();
  }

  /**
   * With `OnPauseForgetting`, a started player paused at any time and resumed
   * shows the caption under the time of the next tick.
   */
  method PauseResumeForgetting(caps: seq<Caption>, t1: real, t2: real) returns (visible: bool, text: string)
    requires FirstMatch(caps, t2).Some?
    ensures visible && Some(text) == TextAt(caps, t2)
  {
    var p := new Player();
    p.StartCaptions(CaptionArray(caps), true);
    p.Tick(t1);
    p.OnPauseForgetting();
    p.FadeTimer();
    p.OnPlay(true);
    p.Tick(t2);
    visible := p.BoxVisible();
    text := p.subBox.value.text;
  }
}
