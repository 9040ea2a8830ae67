/**
 * The caption list both content-side schedulers work on, and the selection
 * they make on every tick: the first caption, in list order, whose closed
 * interval `[start, end]` contains the playback time.
 *
 * Times are real numbers: `video.currentTime` and the caption bounds are only
 * compared, so the rounding of floating point plays no part.
 */
module Captions {
  import opened Wrappers

  datatype Caption = Caption(start: real, end: real, text: string)

  /** `t >= c.start && t <= c.end`. */
  predicate Covers(c: Caption, t: real)
  {
    c.start <= t <= c.end
  }

  /**
   * `captions.findIndex(c => t >= c.start && t <= c.end)`, with `None` for -1:
   * the lowest index whose caption covers `t`, and `None` exactly when no
   * caption does.
   */
  function FirstMatch(caps: seq<Caption>, t: real): (r: Option<nat>)
    ensures r.Some? ==> r.value < |caps| && Covers(caps[r.value], t)
    ensures r.Some? ==> forall j :: 0 <= j < r.value ==> !Covers(caps[j], t)
    ensures r.None? <==> forall j :: 0 <= j < |caps| ==> !Covers(caps[j], t)
  {
    if |caps| == 0 then None
    else if Covers(caps[0], t) then Some(0)
    else match FirstMatch(caps[1..], t)
      case None => None
      case Some(i) => Some(i + 1)
  }

  /** The text of the caption under `t`, or `None` when no caption covers it. */
  function TextAt(caps: seq<Caption>, t: real): Option<string>
  {
    match FirstMatch(caps, t)
    case Some(i) => Some(caps[i].text)
    case None => None
  }

  /**
   * Both schedulers clear the last interval before creating the next one, so
   * the intervals still running are at most the last one created: one ticks
   * at most.
   */
  lemma AtMostOneRunning(running: set<nat>, last: nat)
    requires running <= {last}
    ensures |running| <= 1
  {
    if last in running {
      assert running == {last};
    } else {
      assert running == {};
    }
  }
}
