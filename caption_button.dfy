/**
 * The FA button of public/content/addCaptionButton.js: the guard that makes
 * one button only, and the click handler, which on a first click fetches the
 * captions from the server, caches them in `window.__farsiCachedCaptions`
 * and turns `window.__farsiSubsActive` on, and on later clicks only flips that
 * flag.
 *
 * The `/preload` response is an input: `Ok` with the parsed body, or `Err`
 * with the message of the error that `fetch` or `resp.json()` ends in. The
 * button's looks are its icon; its styling and placement are not modelled.
 */
module CaptionButton {
  import opened Wrappers
  import opened JsValues

  /** `{ start: 0, end: 9999, text }`. */
  function Caption(text: Json): Json
  {
    Obj([("start", Num(0)), ("end", Num(9999)), ("text", text)])
  }

  /** `data.persian || data.fullText || data.english || ""`, then `|| "No subtitles"`. */
  function FallbackText(data: Json): (r: Json)
    ensures Truthy(r)
    ensures Truthy(Get(data, "persian")) ==> r == Get(data, "persian")
    ensures !Truthy(Get(data, "persian")) && Truthy(Get(data, "fullText")) ==> r == Get(data, "fullText")
    ensures !Truthy(Get(data, "persian")) && !Truthy(Get(data, "fullText")) && Truthy(Get(data, "english")) ==>
      r == Get(data, "english")
    ensures !Truthy(Get(data, "persian")) && !Truthy(Get(data, "fullText")) && !Truthy(Get(data, "english")) ==>
      r == Str("No subtitles")
  {
    var text := Or(Or(Or(Get(data, "persian"), Get(data, "fullText")), Get(data, "english")), Str(""));
    Or(text, Str("No subtitles"))
  }

  /** `data.captions || data.englishSegments || null`. */
  function ChosenList(data: Json): Json
  {
    Or(Or(Get(data, "captions"), Get(data, "englishSegments")), Null)
  }

  /** `Array.isArray(v) && v.length !== 0`. */
  predicate NonEmptyArray(v: Json)
  {
    v.Arr? && |v.items| > 0
  }

  /** What a successful response puts in the cache: the chosen list, or the single fallback caption. */
  function SelectCaptions(data: Json): (r: Json)
    ensures NonEmptyArray(r)
  {
    var captions := ChosenList(data);
    if !Truthy(captions) || !captions.Arr? || |captions.items| == 0 then Arr([Caption(FallbackText(data))])
    else captions
  }

  /**
   * `data.captions` wins when it is truthy, `data.englishSegments` is tried
   * only when it is not, and a chosen value that is no non-empty array gives
   * the fallback caption. So an empty `captions` array, being truthy, hides
   * the `englishSegments` beside it.
   */
  lemma SelectionOrder(data: Json)
    ensures NonEmptyArray(Get(data, "captions")) ==> SelectCaptions(data) == Get(data, "captions")
    ensures !Truthy(Get(data, "captions")) && NonEmptyArray(Get(data, "englishSegments")) ==>
      SelectCaptions(data) == Get(data, "englishSegments")
    ensures Truthy(Get(data, "captions")) && !NonEmptyArray(Get(data, "captions")) ==>
      SelectCaptions(data) == Arr([Caption(FallbackText(data))])
    ensures !Truthy(Get(data, "captions")) && !NonEmptyArray(Get(data, "englishSegments")) ==>
      SelectCaptions(data) == Arr([Caption(FallbackText(data))])
  {
  }

  /** The outcome of the `/preload` call: the server's data, or the message of the error thrown. */
  function PreloadOutcome(resp: Result<Json>): (r: Result<Json>)
    ensures resp.Err? ==> r == Err(resp.message)
    ensures resp.Ok? && Truthy(resp.value) && Truthy(Get(resp.value, "success")) ==> r == Ok(resp.value)
    ensures resp.Ok? && !(Truthy(resp.value) && Truthy(Get(resp.value, "success"))) ==>
      r == Err(ToString(Or(Get(resp.value, "error"), Str("Server returned no success"))))
  {
    match resp
    case Err(m) => Err(m)
    case Ok(data) =>
      if !Truthy(data) || !Truthy(Get(data, "success")) then
        Err(ToString(Or(Get(data, "error"), Str("Server returned no success"))))
      else Ok(data)
  }

  datatype Icon = DefaultIcon | ActiveIcon | ErrorIcon

  /**
   * What a click broadcasts, both to the background and as a window event:
   * `SHOW_TIMED_SUBS` with `farsi-show-timed`, or `TOGGLE_PERSIAN_SUBS` with
   * `farsi-toggle-hide`. No listener in the repository acts on the second
   * pair (public/content/caption.js listens for `farsi-show-timed` and window
   * messages only, and public/background/index.js answers it "Unknown message
   * type"), so turning the toggle off leaves the captions on screen.
   */
  datatype Signal = NoSignal | ShowTimed(captions: Json) | ToggleHide

  /** The page as the button script sees it. */
  class Page {
    /** The number of elements with the id `farsi-caption-btn`. */
    var buttons: nat
    var icon: Icon
    /** `window.__farsiCachedCaptions`. */
    var cachedCaptions: Json
    /** `window.__farsiSubsActive`. */
    var subsActive: Json

    constructor ()
      ensures buttons == 0 && icon == DefaultIcon && cachedCaptions == Undefined && subsActive == Undefined
    {
      buttons := 0;
      icon := DefaultIcon;
      cachedCaptions := Undefined;
      subsActive := Undefined;
    }

    /**
     * `createCaptionButton()`: a page that has the button keeps it and gets no
     * second one; otherwise one button is made and the page globals get their
     * defaults.
     */
    method CreateCaptionButton()
      modifies this
      ensures old(buttons) > 0 ==>
        buttons == old(buttons) && icon == old(icon)
        && cachedCaptions == old(cachedCaptions) && subsActive == old(subsActive)
      ensures old(buttons) == 0 ==>
        && buttons == 1 && icon == DefaultIcon
        && cachedCaptions == Or(old(cachedCaptions), Null)
        && subsActive == (if IsNullish(old(subsActive)) then Bool(false) else old(subsActive))
      ensures old(buttons) <= 1 ==> buttons == 1
    {
      if buttons > 0 {
        return;
      }
      buttons := 1;
      icon := DefaultIcon;
      cachedCaptions := Or(cachedCaptions, Null);
      subsActive := if IsNullish(subsActive) then Bool(false) else subsActive;
    }

    /**
     * The click handler. Without a cache it fetches: a failure shows the error
     * icon and leaves the cache and the flag as they were; a success caches
     * `SelectCaptions(data)`, sets the flag and sends those captions. With a
     * cache it does not fetch and only flips the flag, sending the cached
     * captions again when it turns on and `ToggleHide` when it turns off.
     */
    method Click(resp: Result<Json>) returns (fetched: bool, signal: Signal, error: Option<string>)
      modifies this
      ensures buttons == old(buttons)
      ensures fetched <==> !Truthy(old(cachedCaptions))
      ensures fetched && PreloadOutcome(resp).Err? ==>
        && error == Some(PreloadOutcome(resp).message) && signal == NoSignal && icon == ErrorIcon
        && cachedCaptions == old(cachedCaptions) && subsActive == old(subsActive)
      ensures fetched && PreloadOutcome(resp).Ok? ==>
        && error.None? && icon == ActiveIcon && subsActive == Bool(true)
        && cachedCaptions == SelectCaptions(PreloadOutcome(resp).value)
        && signal == ShowTimed(cachedCaptions)
      ensures !fetched ==>
        && error.None? && cachedCaptions == old(cachedCaptions)
        && subsActive == Bool(!Truthy(old(subsActive)))
        && (Truthy(subsActive) ==> signal == ShowTimed(cachedCaptions) && icon == ActiveIcon)
        && (!Truthy(subsActive) ==> signal == ToggleHide && icon == DefaultIcon)
      ensures signal.ShowTimed? && fetched ==> NonEmptyArray(signal.captions)
    {
      fetched := !Truthy(cachedCaptions);
      if fetched {
        icon := ActiveIcon;
        var outcome := PreloadOutcome(resp);
        if outcome.Err? {
          icon := ErrorIcon;
          return fetched, NoSignal, Some(outcome.message);
        }
        cachedCaptions := SelectCaptions(outcome.value);
        subsActive := Bool(true);
        signal, error := ShowTimed(cachedCaptions), None;
        icon := ActiveIcon;
      } else {
        subsActive := Bool(!Truthy(subsActive));
        if Truthy(subsActive) {
          signal := ShowTimed(cachedCaptions);
          icon := ActiveIcon;
        } else {
          signal := ToggleHide;
          icon := DefaultIcon;
        }
        error := None;
      }
    }

    /** The 3.5 s timer the error path sets: the default icon comes back. */
    method ErrorTimer()
      modifies this
      ensures icon == DefaultIcon
      ensures buttons == old(buttons) && cachedCaptions == old(cachedCaptions) && subsActive == old(subsActive)
    {
      icon := DefaultIcon;
    }
  }

  /** A first click loads and sends the captions; the next two send `ToggleHide` and then the same captions again, without a fetch. */
  method LoadThenToggle(data: Json) returns (load: Signal, off: Signal, on: Signal, fetches: nat)
    requires Truthy(data) && Truthy(Get(data, "success"))
    ensures load == ShowTimed(SelectCaptions(data)) && off == ToggleHide && on == load
    ensures fetches == 1
  {
    var page := new Page();
    page.CreateCaptionButton();
    var f0, e0, f1, e1, f2, e2;
    f0, load, e0 := page.Click(Ok(data));
    f1, off, e1 := page.Click(Ok(data));
    f2, on, e2 := page.Click(Ok(data));
    fetches := (if f0 then 1 else 0) + (if f1 then 1 else 0) + (if f2 then 1 else 0);
  }
}
