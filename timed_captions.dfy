/**
 * The timed-caption content script of src/content/captions.js: the
 * `subtitleBox` created once, `showSubtitle` and `hideSubtitle`, the
 * `startTimed` interval and the runtime message listener.
 *
 * The box is an object: `pageBox` is what
 * `document.getElementById("persian-subtitle-box")` finds, `null` when the page
 * has no such element. The interval is an explicit step (`Tick`), and
 * `document.querySelector("video")` is the `videoFound` input.
 */
module TimedCaptions {
  import opened Wrappers
  import opened Captions

  /** A subtitle `div`: its `innerText` and whether `display` is `"block"`. */
  class Box {
    var text: string
    var displayed: bool

    constructor ()
      ensures text == "" && !displayed
    {
      text := "";
      displayed := false;
    }
  }

  class TimedScript {
    var subtitleBox: Box?
    /** `intervalId`: the id of the last interval created. */
    var intervalId: Option<nat>
    /** The intervals created and not cleared. */
    var running: set<nat>
    var nextId: nat
    /** The list the last interval was started with. */
    var timed: seq<Caption>

    /** Every running interval is the last one created, so at most one ticks (`AtMostOneRunning`). */
    predicate Valid()
      reads this
    {
      && nextId > 0
      && (intervalId.Some? ==> 0 < intervalId.value < nextId)
      && (intervalId.None? ==> running == {})
      && (intervalId.Some? ==> running <= {intervalId.value})
    }

    constructor ()
      ensures Valid()
      ensures subtitleBox == null && intervalId.None? && running == {} && timed == []
    {
      subtitleBox := null;
      intervalId := None;
      running := {};
      nextId := 1;
      timed := [];
    }

    /** `ensureBox()`: once there is a box, every call returns that same box. */
    method EnsureBox(pageBox: Box?) returns (b: Box)
      modifies this
      ensures subtitleBox == b
      ensures old(subtitleBox) != null ==> b == old(subtitleBox)
      ensures old(subtitleBox) == null && pageBox != null ==> b == pageBox
      ensures old(subtitleBox) == null && pageBox == null ==> fresh(b) && b.text == "" && !b.displayed
      ensures intervalId == old(intervalId) && running == old(running) && nextId == old(nextId) && timed == old(timed)
    {
      if subtitleBox != null {
        return subtitleBox;
      }
      subtitleBox := pageBox;
      if subtitleBox != null {
        return subtitleBox;
      }
      b := new Box();
      subtitleBox := b;
    }

    /** `showSubtitle(text)`: the box, made if need be, shows `text`. */
    method ShowSubtitle(text: string, pageBox: Box?)
      modifies this, subtitleBox, pageBox
      ensures subtitleBox != null && subtitleBox.text == text && subtitleBox.displayed
      ensures old(subtitleBox) != null ==> subtitleBox == old(subtitleBox)
      ensures old(subtitleBox) == null && pageBox != null ==> subtitleBox == pageBox
      ensures old(subtitleBox) == null && pageBox == null ==> fresh(subtitleBox)
      ensures pageBox != null && pageBox != subtitleBox ==> unchanged(pageBox)
      ensures intervalId == old(intervalId) && running == old(running) && nextId == old(nextId) && timed == old(timed)
    {
      var b := EnsureBox(pageBox);
      b.text := text;
      b.displayed := true;
    }

    /** `hideSubtitle()`: an existing box stops being displayed; none is made. */
    method HideSubtitle()
      modifies subtitleBox
      ensures subtitleBox != null ==> !subtitleBox.displayed && subtitleBox.text == old(subtitleBox.text)
    {
      if subtitleBox != null {
        subtitleBox.displayed := false;
      }
    }

    /**
     * `startTimed(captions)`: without a video nothing changes; otherwise the
     * previous interval is cleared and one over `captions` replaces it.
     */
    method StartTimed(captions: seq<Caption>, videoFound: bool)
      requires Valid()
      modifies this
      ensures Valid()
      ensures subtitleBox == old(subtitleBox)
      ensures !videoFound ==>
        intervalId == old(intervalId) && running == old(running) && nextId == old(nextId) && timed == old(timed)
      ensures videoFound ==>
        && intervalId == Some(old(nextId)) && running == {old(nextId)} && nextId == old(nextId) + 1
        && timed == captions
    {
      if !videoFound {
        return;
      }
      if intervalId.Some? {
        running := running - {intervalId.value};
      }
      intervalId := Some(nextId);
      running := running + {nextId};
      nextId := nextId + 1;
      timed := captions;
    }

    /** The running interval fires at time `t`: the first caption covering `t` is shown, or the box hidden. */
    method Tick(t: real, pageBox: Box?)
      modifies this, subtitleBox, pageBox
      ensures intervalId == old(intervalId) && running == old(running) && nextId == old(nextId) && timed == old(timed)
      ensures running == {} ==> subtitleBox == old(subtitleBox) && (subtitleBox != null ==> unchanged(subtitleBox))
      ensures running != {} && FirstMatch(timed, t).Some? ==>
        subtitleBox != null && subtitleBox.displayed && Some(subtitleBox.text) == TextAt(timed, t)
      ensures running != {} && FirstMatch(timed, t).None? ==>
        subtitleBox == old(subtitleBox) && (subtitleBox != null ==> !subtitleBox.displayed)
      ensures old(subtitleBox) != null ==> subtitleBox == old(subtitleBox)
      ensures pageBox != null && pageBox != subtitleBox ==> unchanged(pageBox)
    {
      if running == {} {
        return;
      }
      var idx := FirstMatch(timed, t);
      if idx.Some? {
        ShowSubtitle(timed[idx.value].text, pageBox);
      } else {
        HideSubtitle();
      }
    }

    /**
     * The runtime message listener: `SHOW_PERSIAN_SUB` shows `msg.text`;
     * `SHOW_TIMED_SUBS` starts `msg.captions || []`, so a message without
     * captions starts an interval over no captions, whose every tick hides.
     */
    method OnMessage(msgType: string, text: string, captions: Option<seq<Caption>>, videoFound: bool, pageBox: Box?)
      requires Valid()
      modifies this, subtitleBox, pageBox
      ensures Valid()
      ensures old(subtitleBox) != null ==> subtitleBox == old(subtitleBox)
      ensures subtitleBox == old(subtitleBox) || subtitleBox == pageBox || fresh(subtitleBox)
      ensures pageBox != null && pageBox != subtitleBox ==> unchanged(pageBox)
      ensures msgType == "SHOW_PERSIAN_SUB" ==>
        && subtitleBox != null && subtitleBox.text == text && subtitleBox.displayed
        && intervalId == old(intervalId) && running == old(running) && timed == old(timed)
      ensures msgType == "SHOW_TIMED_SUBS" ==>
        && subtitleBox == old(subtitleBox) && (subtitleBox != null ==> unchanged(subtitleBox))
        && (videoFound ==> running == {old(nextId)} && timed == captions.GetOr([]))
        && (!videoFound ==> running == old(running) && timed == old(timed))
      ensures msgType != "SHOW_PERSIAN_SUB" && msgType != "SHOW_TIMED_SUBS" ==>
        && subtitleBox == old(subtitleBox) && (subtitleBox != null ==> unchanged(subtitleBox))
        && intervalId == old(intervalId) && running == old(running) && timed == old(timed)
    {
      if msgType == "SHOW_PERSIAN_SUB" {
        ShowSubtitle(text, pageBox);
      }
      if msgType == "SHOW_TIMED_SUBS" {
        StartTimed(captions.GetOr([]), videoFound);
      }
    }
  }

  /** A `SHOW_TIMED_SUBS` without captions, with a video, runs a ticker over no captions: its tick hides the box shown before. */
  method TimedWithoutCaptions(t: real) returns (shown: bool)
    ensures !shown
  {
    var s := new TimedScript();
    var page := new Box();
    s.OnMessage("SHOW_PERSIAN_SUB", "salam", None, true, page);
    s.OnMessage("SHOW_TIMED_SUBS", "", None, true, page);
    s.Tick(t, page);
    shown := s.subtitleBox.displayed;
  }
}
