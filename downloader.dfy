/**
 * server/youtubeDownloader.js: the cleaning of the video URL by two global
 * regular-expression deletions and a trim, the yt-dlp argument vector with
 * its optional `--cookies` and `--proxy` pairs, the decision taken when
 * yt-dlp exits, and the once-only `finish` of the proxy probe.
 *
 * The proxy probe's sockets and timer, the yt-dlp process and the clock are
 * inputs: the probe's answer, the exit code and what the process wrote.
 */
module Downloader {
  import opened Wrappers
  import opened Text
  import opened Files

  // ---- URL cleaning ----

  /** The longest prefix of `s` without `&`. */
  function UntilAmp(s: string): (p: string)
    ensures p <= s && '&' !in p
    ensures |p| < |s| ==> s[|p|] == '&'
  {
    if |s| == 0 || s[0] == '&' then "" else [s[0]] + UntilAmp(s[1..])
  }

  /**
   * The length of the match of `/&list=[^&]+/` at the start of `s`, or 0.
   * `[^&]+` is greedy, so a match runs from the `&` to the next `&` or the end.
   */
  function ListMatchLen(s: string): (n: nat)
    ensures n > 0 ==> 7 <= n <= |s| && (n == |s| || s[n] == '&')
  {
    if |s| > 0 && s[0] == '&' then
      var u := UntilAmp(s[1..]);
      if |u| > 5 && u[..5] == "list=" then 1 + |u| else 0
    else 0
  }

  /** The length of the longest run of decimal digits at the start of `s`. */
  function DigitRun(s: string): (n: nat)
    ensures n <= |s|
    ensures forall k :: 0 <= k < n ==> IsDigit(s[k])
    ensures n < |s| ==> !IsDigit(s[n])
  {
    if |s| > 0 && IsDigit(s[0]) then 1 + DigitRun(s[1..]) else 0
  }

  /** The length of the match of `/&t=\d+s?/` at the start of `s`, or 0; `\d+` is greedy and the `s` is taken when present. */
  function TimeMatchLen(s: string): (n: nat)
    ensures n > 0 ==> 4 <= n <= |s| && s[0] == '&'
  {
    if |s| >= 3 && s[..3] == "&t=" && DigitRun(s[3..]) > 0 then
      var d := DigitRun(s[3..]);
      if 3 + d < |s| && s[3 + d] == 's' then 4 + d else 3 + d
    else 0
  }

  /** `s.replace(/&list=[^&]+/g, "")`: one left-to-right pass, resuming after each match. */
  function RemoveList(s: string): (r: string)
    ensures |r| <= |s|
    decreases |s|
  {
    if |s| == 0 then ""
    else if ListMatchLen(s) > 0 then RemoveList(s[ListMatchLen(s)..])
    else [s[0]] + RemoveList(s[1..])
  }

  /** `s.replace(/&t=\d+s?/g, "")`. */
  function RemoveTime(s: string): (r: string)
    ensures |r| <= |s|
    decreases |s|
  {
    if |s| == 0 then ""
    else if TimeMatchLen(s) > 0 then RemoveTime(s[TimeMatchLen(s)..])
    else [s[0]] + RemoveTime(s[1..])
  }

  /** `cleanedUrl` (server/youtubeDownloader.js:67-70). */
  function CleanUrl(url: string): (r: string)
    ensures |r| <= |url|
  {
    Trim(RemoveTime(RemoveList(url)))
  }

  /** No `&list=...` match starts anywhere in `s`. */
  predicate NoListMatch(s: string)
  {
    forall p :: 0 <= p < |s| ==> ListMatchLen(s[p..]) == 0
  }

  /** After a removal that starts at an `&`, what remains is empty or starts at an `&` again. */
  lemma {:induction false} RemoveListKeepsAmpStart(s: string)
    requires |s| > 0 && s[0] == '&'
    ensures RemoveList(s) == "" || RemoveList(s)[0] == '&'
    decreases |s|
  {
    var n := ListMatchLen(s);
    if n > 0 && n < |s| {
      RemoveListKeepsAmpStart(s[n..]);
    }
  }

  /**
   * The deletion never touches the URL before its first `&`: scheme, host,
   * path and the first query parameter (`watch?v=...`) come out as they went in.
   */
  lemma {:induction false} RemoveListKeepsHead(s: string)
    ensures UntilAmp(RemoveList(s)) == UntilAmp(s)
    decreases |s|
  {
    if |s| > 0 {
      if s[0] == '&' {
        RemoveListKeepsAmpStart(s);
      } else {
        RemoveListKeepsHead(s[1..]);
      }
    }
  }

  lemma {:induction false} RemoveListStart(s: string)
    requires |s| > 0 && ListMatchLen(s) == 0
    ensures RemoveList(s) == [s[0]] + RemoveList(s[1..])
  {
  }

  /** Whether a match starts at an `&` depends only on the text up to the next `&`. */
  lemma ListMatchByHead(a: string, b: string)
    requires UntilAmp(a) == UntilAmp(b)
    ensures ListMatchLen("&" + a) == ListMatchLen("&" + b)
  {
    assert ("&" + a)[1..] == a;
    assert ("&" + b)[1..] == b;
  }

  /** Every `&list=` followed by at least one character other than `&` is gone after the deletion. */
  lemma {:induction false} RemoveListComplete(s: string)
    ensures NoListMatch(RemoveList(s))
    decreases |s|
  {
    if |s| > 0 {
      var n := ListMatchLen(s);
      if n > 0 {
        RemoveListComplete(s[n..]);
      } else {
        var rest := RemoveList(s[1..]);
        RemoveListComplete(s[1..]);
        RemoveListStart(s);
        var r := [s[0]] + rest;
        forall p | 0 <= p < |r| ensures ListMatchLen(r[p..]) == 0 {
          if p == 0 {
            if s[0] == '&' {
              RemoveListKeepsHead(s[1..]);
              ListMatchByHead(rest, s[1..]);
              assert r == "&" + rest;
              assert s == "&" + s[1..];
            }
          } else {
            assert r[p..] == rest[p - 1..];
          }
        }
      }
    }
  }

  lemma {:induction false} RemoveListNoAmp(s: string)
    requires '&' !in s
    ensures RemoveList(s) == s
  {
    if |s| > 0 {
      assert '&' !in s[1..] by { forall k | 0 <= k < |s| - 1 ensures s[1..][k] != '&' { assert s[1..][k] == s[k + 1]; } }
      RemoveListNoAmp(s[1..]);
      assert [s[0]] + s[1..] == s;
    }
  }

  lemma {:induction false} RemoveTimeNoAmp(s: string)
    requires '&' !in s
    ensures RemoveTime(s) == s
  {
    if |s| > 0 {
      assert '&' !in s[1..] by { forall k | 0 <= k < |s| - 1 ensures s[1..][k] != '&' { assert s[1..][k] == s[k + 1]; } }
      RemoveTimeNoAmp(s[1..]);
      assert [s[0]] + s[1..] == s;
    }
  }

  /** A URL without `&` is only trimmed (server/youtubeDownloader.js:67-70). */
  lemma CleanUrlWithoutAmp(url: string)
    requires '&' !in url
    ensures CleanUrl(url) == Trim(url)
  {
    RemoveListNoAmp(url);
    RemoveTimeNoAmp(url);
  }

  /** Dropping the first character of a string without `&` leaves a string without `&`. */
  lemma AmpFreeTail(a: string)
    requires |a| > 0 && '&' !in a
    ensures '&' !in a[1..]
  {
    forall k | 0 <= k < |a| - 1
      ensures a[1..][k] != '&'
    {
      assert a[1..][k] == a[k + 1];
    }
  }

  lemma {:induction false} RemoveListSkipsAmpFree(a: string, b: string)
    requires '&' !in a
    ensures RemoveList(a + b) == a + RemoveList(b)
  {
    if |a| > 0 {
      var s := a + b;
      assert s[0] == a[0] && a[0] != '&';
      assert ListMatchLen(s) == 0;
      assert s[1..] == a[1..] + b;
      AmpFreeTail(a);
      RemoveListSkipsAmpFree(a[1..], b);
      assert RemoveList(s) == [s[0]] + RemoveList(s[1..]);
      assert [a[0]] + a[1..] == a;
    } else {
      assert a + b == b;
    }
  }

  lemma {:induction false} RemoveTimeSkipsAmpFree(a: string, b: string)
    requires '&' !in a
    ensures RemoveTime(a + b) == a + RemoveTime(b)
  {
    if |a| > 0 {
      var s := a + b;
      assert s[0] == a[0] && a[0] != '&';
      assert TimeMatchLen(s) == 0;
      assert s[1..] == a[1..] + b;
      AmpFreeTail(a);
      RemoveTimeSkipsAmpFree(a[1..], b);
      assert RemoveTime(s) == [s[0]] + RemoveTime(s[1..]);
      assert [a[0]] + a[1..] == a;
    } else {
      assert a + b == b;
    }
  }

  /** Text before the first `&` cannot start a match, so both deletions copy it unchanged. */
  lemma RemoveSkipsAmpFree(a: string, b: string)
    requires '&' !in a
    ensures RemoveList(a + b) == a + RemoveList(b)
    ensures RemoveTime(a + b) == a + RemoveTime(b)
  {
    RemoveListSkipsAmpFree(a, b);
    RemoveTimeSkipsAmpFree(a, b);
  }

  /** The part of the URL before its first `&` survives both deletions, ahead of everything else. */
  lemma CleaningKeepsHead(url: string)
    ensures UntilAmp(url) <= RemoveTime(RemoveList(url))
  {
    var h := UntilAmp(url);
    var l := RemoveList(url);
    RemoveListKeepsHead(url);
    assert l == UntilAmp(l) + l[|UntilAmp(l)|..];
    RemoveSkipsAmpFree(h, l[|h|..]);
  }

  /**
   * The timestamp deletion is a single pass: a match that only appears once
   * another has been cut out stays in the result.
   */
  lemma TimeRemovalSinglePass()
    ensures RemoveTime("&&t=1t=2") == "&t=2"
  {
    var s := "&&t=1t=2";
    DoubledAmp(s);
    TimeNoMatchUnlessT(s);
    RemoveTimeStart(s);
    SecondStampCut(s[1..]);
    assert [s[0]] + "t=2" == "&t=2";
  }

  lemma DoubledAmp(s: string)
    requires s == "&&t=1t=2"
    ensures |s| >= 2 && s[0] == '&' && s[1] != 't' && s[1..] == "&t=1t=2"
  {
  }

  /** Cutting `&t=1` out of `&t=1t=2` leaves `t=2`, which has no `&` left to match. */
  lemma SecondStampCut(r: string)
    requires r == "&t=1t=2"
    ensures RemoveTime(r) == "t=2"
  {
    assert r == "&t=1" + "t=2";
    StampCut("t=2");
  }

  lemma TimeParamKept(tail: string)
    requires tail == "&t=1x"
    ensures RemoveList(tail) == tail
  {
    assert tail[1..] == "t=1x";
    RemoveListNoAmp(tail[1..]);
    assert UntilAmp(tail[1..]) == tail[1..];
    assert ListMatchLen(tail) == 0;
    RemoveListStart(tail);
  }

  lemma BareListNoMatch(head: string, tail: string)
    requires head == "list=" && tail == "&t=1x"
    ensures ListMatchLen("&" + (head + tail)) == 0
  {
    UntilAmpSkips(head, tail);
    assert ("&" + (head + tail))[1..] == head + tail;
  }

  lemma BareListKept(head: string, tail: string)
    requires head == "list=" && tail == "&t=1x"
    ensures RemoveList("&" + (head + tail)) == "&" + (head + tail)
  {
    TimeParamKept(tail);
    RemoveSkipsAmpFree(head, tail);
    BareListNoMatch(head, tail);
    var s := "&" + (head + tail);
    RemoveListStart(s);
    assert s[1..] == head + tail;
  }

  lemma {:induction false} UntilAmpSkips(a: string, b: string)
    requires '&' !in a
    ensures UntilAmp(a + b) == a + UntilAmp(b)
  {
    if |a| > 0 {
      assert (a + b)[1..] == a[1..] + b;
      assert '&' !in a[1..] by { forall k | 0 <= k < |a| - 1 ensures a[1..][k] != '&' { assert a[1..][k] == a[k + 1]; } }
      UntilAmpSkips(a[1..], b);
      assert [a[0]] + a[1..] == a;
    } else {
      assert a + b == b;
    }
  }

  lemma {:induction false} RemoveTimeStart(s: string)
    requires |s| > 0 && TimeMatchLen(s) == 0
    ensures RemoveTime(s) == [s[0]] + RemoveTime(s[1..])
  {
  }

  /** A timestamp match needs a `t` right after its `&`. */
  lemma TimeNoMatchUnlessT(s: string)
    requires |s| >= 2 && s[1] != 't'
    ensures TimeMatchLen(s) == 0
  {
    if |s| >= 3 {
      assert s[..3][1] == s[1];
    }
  }

  /** `&t=1` followed by text that holds no `&` and starts with neither a digit nor `s` is cut, and the text kept. */
  lemma StampCut(rest: string)
    requires |rest| > 0 && '&' !in rest && !IsDigit(rest[0]) && rest[0] != 's'
    ensures RemoveTime("&t=1" + rest) == rest
  {
    var r := "&t=1" + rest;
    assert r[..3] == "&t=";
    assert r[3..] == "1" + rest;
    assert ("1" + rest)[1..] == rest;
    assert DigitRun("1" + rest) == 1;
    assert TimeMatchLen(r) == 4;
    assert r[4..] == rest;
    RemoveTimeNoAmp(rest);
  }

  /** The instance of `StampCut` that `ListCanSurviveCleaning` needs, kept apart so its literal facts stay out of that proof. */
  lemma TimeTailCut(tail: string)
    requires tail == "&t=1x"
    ensures RemoveTime(tail) == "x"
  {
    assert tail == "&t=1" + "x";
    StampCut("x");
  }

  /**
   * An `&` not followed by `t`, and the text without `&` after it, pass the
   * time deletion unchanged, which goes on in the rest.
   */
  lemma TimeCutJoins(head: string, tail: string)
    requires |head| > 0 && head[0] != 't' && '&' !in head
    ensures RemoveTime("&" + (head + tail)) == "&" + head + RemoveTime(tail)
  {
    RemoveSkipsAmpFree(head, tail);
    var s := "&" + (head + tail);
    assert s[1] == head[0];
    TimeNoMatchUnlessT(s);
    RemoveTimeStart(s);
    assert s[1..] == head + tail;
  }

  /**
   * The list deletion runs first, so cutting a timestamp out afterwards can
   * join a bare `&list=` to the text after it and leave a playlist parameter
   * in the cleaned URL.
   */
  lemma BareListHead(head: string)
    requires head == "list="
    ensures |head| > 0 && head[0] != 't' && '&' !in head
  {
  }

  lemma JoinedUrl(head: string)
    requires head == "list="
    ensures "&" + head + "x" == "&list=x" && Trimmed("&list=x")
  {
  }

  lemma ListCanSurviveCleaning()
    ensures CleanUrl("&list=&t=1x") == "&list=x"
  {
    var head, tail := "list=", "&t=1x";
    var url := "&" + (head + tail);
    assert "&list=&t=1x" == url;
    BareListKept(head, tail);
    var kept := RemoveList(url);
    assert kept == url;
    TimeTailCut(tail);
    BareListHead(head);
    TimeCutJoins(head, tail);
    var cut := RemoveTime(kept);
    JoinedUrl(head);
    TrimOfTrimmed(cut);
    assert CleanUrl(url) == Trim(cut);
  }

  // ---- the yt-dlp command ----

  /** Paths used by the downloader, relative to the server's working directory. */
  const YtDlpPath := "server/app/yt-dlp.exe"
  const FfmpegPath := "server/app/ffmpeg.exe"
  const FfmpegDir := "server/app"
  const CookieFile := "server/youtube.com_cookies.txt"

  /** `path.join(OUTPUT_DIR, "audio_<now>.wav")`. */
  function OutputPath(now: nat): string
  {
    "downloads/audio_" + NatToDecimal(now) + ".wav"
  }

  /** The values the argument vector is assembled from. */
  datatype DownloadArgs = DownloadArgs(
    ffmpegDir: string, outputPath: string, cookiesPath: Option<string>, proxy: Option<string>, url: string)

  const FixedHead := ["-x", "--audio-format", "wav", "--no-playlist", "--ffmpeg-location"]

  /** `args` (server/youtubeDownloader.js:86-98). */
  function BuildArgs(a: DownloadArgs): (r: seq<string>)
    ensures |r| == 9 + (if a.cookiesPath.Some? then 2 else 0) + (if a.proxy.Some? then 2 else 0)
    ensures r[..8] == FixedHead + [a.ffmpegDir, "-o", a.outputPath]
    ensures r[|r| - 1] == a.url
    ensures a.cookiesPath.Some? ==> r[8] == "--cookies" && r[9] == a.cookiesPath.value
    ensures a.proxy.Some? ==>
      var k := if a.cookiesPath.Some? then 10 else 8;
      r[k] == "--proxy" && r[k + 1] == a.proxy.value
  {
    FixedHead + [a.ffmpegDir, "-o", a.outputPath]
    + (if a.cookiesPath.Some? then ["--cookies", a.cookiesPath.value] else [])
    + (if a.proxy.Some? then ["--proxy", a.proxy.value] else [])
    + [a.url]
  }

  /** Reads an argument vector of the shape `BuildArgs` writes back into its parts. */
  function ParseArgs(r: seq<string>): Option<DownloadArgs>
  {
    if |r| < 9 || r[..5] != FixedHead || r[6] != "-o" then None
    else
      var opts := r[8..|r| - 1];
      var a := DownloadArgs(r[5], r[7], None, None, r[|r| - 1]);
      if |opts| == 0 then Some(a)
      else if |opts| == 2 && opts[0] == "--cookies" then Some(a.(cookiesPath := Some(opts[1])))
      else if |opts| == 2 && opts[0] == "--proxy" then Some(a.(proxy := Some(opts[1])))
      else if |opts| == 4 && opts[0] == "--cookies" && opts[2] == "--proxy" then
        Some(a.(cookiesPath := Some(opts[1]), proxy := Some(opts[3])))
      else None
  }

  /**
   * The argument vector determines what it was built from: `--cookies` is
   * there exactly when a cookie file was given, `--proxy` exactly when a proxy
   * was, cookies first, and the URL last.
   */
  lemma ArgsRoundTrip(a: DownloadArgs)
    ensures ParseArgs(BuildArgs(a)) == Some(a)
  {
    var r := BuildArgs(a);
    assert r[..5] == FixedHead;
  }

  /** The process yt-dlp becomes: its exit code (`None` when killed) and the audio file it wrote, if any. */
  datatype YtDlpRun = YtDlpRun(code: Option<int>, writtenAudio: Option<string>)

  /** What `spawn` was called with. */
  datatype Spawned = Spawned(program: string, args: seq<string>)

  /** The files after the process ran. */
  function AfterRun(files: map<string, string>, outputPath: string, run: YtDlpRun): map<string, string>
  {
    if run.writtenAudio.Some? then files[outputPath := run.writtenAudio.value] else files
  }

  /**
   * How `spawn` of yt-dlp goes: the process starts and runs, or it cannot be
   * started (`error` is the message of the error Node emits, such as
   * "spawn yt-dlp ENOENT" when the bare name is not on the PATH).
   */
  datatype Launch = Started(run: YtDlpRun) | StartFailed(error: string)

  /** What becomes of a download: its promise settles, or the whole server process ends on an uncaught error. */
  datatype Fate = Settles(result: Result<string>) | ServerExits(uncaught: string)

  /** The program and argument vector a download of `url` spawns, from the files present before it. */
  function SpawnFor(files: map<string, string>, url: string, now: nat, proxy: Option<string>): Spawned
  {
    Spawned(
      if YtDlpPath in files then YtDlpPath else "yt-dlp",
      BuildArgs(DownloadArgs(
        if FfmpegPath in files then FfmpegDir else ".",
        OutputPath(now),
        if CookieFile in files then Some(CookieFile) else None,
        proxy,
        CleanUrl(url))))
  }

  /** The file lookups and the argument vector of `downloadYouTubeAudio` (server/youtubeDownloader.js:67-98). */
  method PrepareSpawn(fs: FileSystem, url: string, now: nat, proxy: Option<string>) returns (spawned: Spawned)
    ensures spawned == SpawnFor(fs.files, url, now, proxy)
  {
    var cleanedUrl := CleanUrl(url);
    var outputPath := OutputPath(now);
    var ytdlpBundled := fs.Exists(YtDlpPath);
    var ffmpegBundled := fs.Exists(FfmpegPath);
    var cookiesExist := fs.Exists(CookieFile);
    var ytdlpPath := if ytdlpBundled then YtDlpPath else "yt-dlp";
    // `path.dirname` of the bundled binary, or of the bare name "ffmpeg".
    var ffmpegDir := if ffmpegBundled then FfmpegDir else ".";
    var cookiesPath := if cookiesExist then Some(CookieFile) else None;
    spawned := Spawned(ytdlpPath, BuildArgs(DownloadArgs(ffmpegDir, outputPath, cookiesPath, proxy, cleanedUrl)));
  }

  /**
   * `downloadYouTubeAudio(url)` (server/youtubeDownloader.js:62-120); `url` is
   * "" when it is missing. The child process has a `close` listener and no
   * `error` listener, so a process that cannot be started emits an `error`
   * nobody handles: Node throws it from its own callback, outside the `try`,
   * and the server exits.
   */
  method DownloadYouTubeAudio(fs: FileSystem, url: string, now: nat, proxy: Option<string>, launch: Launch)
    returns (fate: Fate, spawned: Option<Spawned>)
    modifies fs
    ensures url == "" ==>
      fate == Settles(Err("Invalid YouTube URL")) && spawned == None && fs.files == old(fs.files)
    ensures url != "" ==> spawned == Some(SpawnFor(old(fs.files), url, now, proxy))
    ensures url != "" && launch.StartFailed? ==>
      fate == ServerExits(launch.error) && fs.files == old(fs.files)
    ensures url != "" && launch.Started? ==>
      var outputPath := OutputPath(now);
      var files := AfterRun(old(fs.files), outputPath, launch.run);
      && fate.Settles?
      && (fate.result.Ok? <==> launch.run.code == Some(0) && outputPath in files)
      && (fate.result.Ok? ==> fate.result.value == outputPath && fs.files == files)
      && (fate.result.Err? ==> fate.result == Err(DownloadFailed) && fs.files == files - {outputPath})
  {
    spawned := None;
    if url == "" {
      return Settles(Err("Invalid YouTube URL")), spawned;
    }
    var s := PrepareSpawn(fs, url, now, proxy);
    spawned := Some(s);
    if launch.StartFailed? {
      return ServerExits(launch.error), spawned;
    }
    var r := SettleRun(fs, OutputPath(now), launch.run);
    fate := Settles(r);
  }

  /**
   * `downloadYouTubeAudio` with an `error` listener that rejects with the
   * error: a process that cannot be started then settles the promise, and
   * the `close` Node emits after it (with a negative code) runs the failure
   * branch, which removes a file at the output path.
   */
  method DownloadYouTubeAudioHandlingError(fs: FileSystem, url: string, now: nat, proxy: Option<string>, launch: Launch)
    returns (fate: Fate, spawned: Option<Spawned>)
    modifies fs
    ensures fate.Settles?
    ensures url == "" ==>
      fate == Settles(Err("Invalid YouTube URL")) && spawned == None && fs.files == old(fs.files)
    ensures url != "" ==> spawned == Some(SpawnFor(old(fs.files), url, now, proxy))
    ensures url != "" && launch.StartFailed? ==>
      fate == Settles(Err(launch.error)) && fs.files == old(fs.files) - {OutputPath(now)}
    ensures url != "" && launch.Started? ==>
      var outputPath := OutputPath(now);
      var files := AfterRun(old(fs.files), outputPath, launch.run);
      && (fate.result.Ok? <==> launch.run.code == Some(0) && outputPath in files)
      && (fate.result.Ok? ==> fate.result.value == outputPath && fs.files == files)
      && (fate.result.Err? ==> fate.result == Err(DownloadFailed) && fs.files == files - {outputPath})
  {
    spawned := None;
    if url == "" {
      return Settles(Err("Invalid YouTube URL")), spawned;
    }
    var s := PrepareSpawn(fs, url, now, proxy);
    spawned := Some(s);
    if launch.StartFailed? {
      fate := Settles(Err(launch.error));
      // the trailing `close`: nothing was written and the code is not 0
      var _ := SettleRun(fs, OutputPath(now), YtDlpRun(Some(-2), None));
      return;
    }
    var r := SettleRun(fs, OutputPath(now), launch.run);
    fate := Settles(r);
  }

  /** The error of a run that fails or leaves no audio file. */
  const DownloadFailed := "yt-dlp download failed. Check logs."

  /** The process has run: success needs exit code 0 and the output file; a failure removes what was written. */
  method SettleRun(fs: FileSystem, outputPath: string, run: YtDlpRun) returns (r: Result<string>)
    modifies fs
    ensures var files := AfterRun(old(fs.files), outputPath, run);
      && (r.Ok? <==> run.code == Some(0) && outputPath in files)
      && (r.Ok? ==> r.value == outputPath && fs.files == files)
      && (r.Err? ==> r == Err(DownloadFailed) && fs.files == files - {outputPath})
  {
    if run.writtenAudio.Some? {
      fs.Write(outputPath, run.writtenAudio.value);
    }
    var produced := fs.Exists(outputPath);
    if run.code == Some(0) && produced {
      r := Ok(outputPath);
    } else {
      if produced {
        var _ := fs.Unlink(outputPath);
      }
      r := Err(DownloadFailed);
    }
  }

  // ---- the proxy probe ----

  const ProxyPorts: seq<nat> := [1080, 2080, 8080, 3128, 9050, 9999]

  /** What a successful HTTP probe of `port` reports. */
  function HttpProxy(port: nat): string
  {
    "http://127.0.0.1:" + NatToDecimal(port)
  }

  /** What a successful SOCKS connection to `port` reports. */
  function SocksProxy(port: nat): string
  {
    "socks5://127.0.0.1:" + NatToDecimal(port)
  }

  /**
   * The `done` flag and `finish` of `detectActiveProxy`
   * (server/youtubeDownloader.js:27-33): the first caller settles the promise,
   * whether a probe (with a proxy URL) or the 2.5-second timer (with `None`).
   */
  class ProxyLatch {
    var done: bool
    /** What the promise resolved with, once it has. */
    var resolved: Option<Option<string>>

    predicate Valid()
      reads this
    {
      done <==> resolved.Some?
    }

    constructor ()
      ensures Valid() && !done
    {
      done := false;
      resolved := None;
    }

    /** `finish(proxy)`: only the first call has an effect. */
    method Finish(proxy: Option<string>)
      requires Valid()
      modifies this
      ensures Valid() && done
      ensures old(done) ==> resolved == old(resolved)
      ensures !old(done) ==> resolved == Some(proxy)
    {
      if !done {
        done := true;
        resolved := Some(proxy);
      }
    }
  }

  /** Once settled, the latch keeps its first value whatever is reported later. */
  method SettleTwice(first: Option<string>, second: Option<string>) returns (value: Option<string>)
    ensures value == first
  {
    var latch := new ProxyLatch();
    latch.Finish(first);
    latch.Finish(second);
    value := latch.resolved.value;
  }
}
