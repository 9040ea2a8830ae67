# YouTube Farsi subtitles: a Dafny model

This project models the core of a browser extension and its local server. Together they put Persian subtitles on YouTube videos.

- **Server.** It downloads a video's audio with yt-dlp and transcribes it with whisper.cpp. It translates the transcript through a chat-completions backend, gated by a per-user, per-day usage ledger kept in SQLite.
- **Extension.** It has three parts:
  - a background worker that talks to the server and relays results;
  - a content-side audio capture that encodes 16-bit PCM as WAV;
  - a set of content scripts: the FA button and two schedulers that show the caption under the playback time.

There is one Dafny module per source file, plus shared modules:

- `Wrappers`: Option and Result.
- `Text`: JavaScript's `join`, `split`, `trim` and `String(n)`.
- `JsValues`: JavaScript values, with truthiness, `||`, property access, `String(v)` and `JSON.stringify`.
- `Pcm`: bytes, 16-bit samples and little-endian fields.
- `Seqs`: concatenation of chunks.
- `Files`: the file system as a map from path to contents.
- `Captions`: the caption list and the first-match rule that both schedulers use.

State the source updates in place is a class:

- the ledger;
- the file system;
- the popup registry;
- the background cache;
- the capture state;
- the caption player;
- the timed-caption script;
- the page the button sees;
- the proxy latch.

Array algorithms keep their arrays: the sample conversion, the byte buffer, the WAV writer and the merge loop.

Timers, intervals and processes become explicit steps or inputs. These include `Tick`, `FadeTimer`, `OnQuietTimeout`, the exit of yt-dlp and whisper-cli, and the reply of a `fetch`.

Some facts about the code shape the model:

- `/preload` reads only `url` from the request body and checks no quota.
- `/api/translateVideo` calls `translateSegments`, which is neither defined nor imported (see Findings).
- The translation is the backend's reply trimmed, with nothing done to it afterwards; a failed backend call is passed on, not retried.
- `addUserUsage` reads and then writes; it is not atomic. The model runs the two steps one after the other.
- Each sqlite3 call may reject (no sqlite3.exe, or a non-zero exit). Which calls reject is an input, and the rejection is passed on.
- server/server.js imports `translateToPersian` from server/translator.js, which exports only `translateWithQuota`. A missing named export makes the ES module fail when it is linked, so server/server.js as written never starts and none of its routes answers. The Server module describes the routes as they would behave if that import resolved, with the translator of `/preload` given as a function. Every Server contract is to be read under that assumption.

## Model

| member | source | states |
|---|---|---|
| JsValues.Or | server/translator.js:26 | `a \|\| b` is truthy exactly when one of its operands is |
| JsValues.DefinedFields | server/translator.js:45 | the fields `JSON.stringify` writes are fields of the object, none of them `undefined` |
| JsValues.ToString | server/translator.js:27 | `String(v)`: the text of each kind of value, `[object Object]` for an object and the comma join of the elements for an array; `NormalizeSingleton` and `NormalizeArrayAppend` state what it gives inside the normalisation |
| JsValues.Stringify | server/translator.js:45 | `JSON.stringify(v)`: `undefined` array elements print as `null` and `undefined` properties are left out, as `DefinedFields` states |
| Text.Split | server/database.js:72 | `split` on one character never gives an empty list |
| Text.SplitJoin | src/background/index.ts:89-93 | splitting a join at its separator gives the parts back when no part holds the separator |
| Text.TrimStart | server/translator.js:62 | a suffix of the input: everything removed from the front is white space, and what is left starts with a non-space |
| Text.TrimEnd | server/translator.js:62 | a prefix of the input: everything removed from the back is white space, and what is left ends with a non-space |
| Text.TrimIsSlice | server/translator.js:62 | `trim()` is the slice between the outer white-space runs and has no outer white space left |
| Text.SpacesFrom | server/translator.js:62 | the index where the leading white-space run ends: everything before it is white space, the character at it is not |
| Text.SpacesBefore | server/translator.js:62 | the index where the trailing white-space run starts: everything from it on is white space, the character before it is not |
| Text.TrimOfTrimmed | server/whisperTranscriber.js:140 | trimming text with no outer white space changes nothing |
| Text.NonEmpty | server/whisperTranscriber.js:138 | `filter(Boolean)` keeps no empty word and keeps every non-empty word as often as the input has it; with `NonEmptyAppend`, in order |
| Text.JoinWordsEmpty | server/translator.js:29-30 | the joined words are empty exactly when every word is empty |
| Text.JoinWordsAppend | server/translator.js:29-30 | the join of two lists is the two joins with one space between them, and no space when either side is empty |
| Text.NatToDecimal | src/background/index.ts:84-86 | `String(n)` is a non-empty run of digits whose value is `n`, with no leading zero: "0" for 0 |
| Text.Utf16Length | server/translator.js:73 | the UTF-16 length lies between the number of code points and twice that |
| Pcm.Int16Bytes | src/utils/audioUtils.ts:22-26 | a sample takes two bytes |
| Pcm.Int16RoundTrip | src/utils/audioUtils.ts:22-26 | the two bytes of a sample read back as that sample |
| Pcm.SamplesBytes | src/utils/audioUtils.ts:22-26 | the byte view of n samples has 2n bytes |
| Pcm.DecodeSamples | src/utils/audioUtils.ts:22-26 | 2n bytes read back as n samples |
| Pcm.DecodeSamplesBytes | src/utils/audioUtils.ts:22-26 | decoding the bytes of some samples gives the same samples back |
| Pcm.SamplesBytesAppend | public/content/audioCapture.ts:45 | samples laid end to end have their bytes laid end to end |
| Pcm.SamplesBytesSnoc | public/content/audioCapture.ts:45 | one more sample appends its two bytes |
| Pcm.U32Le | public/content/audioCapture.ts:32 | `setUint32` writes four bytes |
| Pcm.U16Le | public/content/audioCapture.ts:36 | `setUint16` writes two bytes |
| Pcm.U32RoundTrip | public/content/audioCapture.ts:32 | a 32-bit field reads back as the value written, modulo 2^32 |
| Pcm.U16RoundTrip | public/content/audioCapture.ts:36 | a 16-bit field reads back as the value written, modulo 2^16 |
| Pcm.Ascii | public/content/audioCapture.ts:49-53 | one byte per character, each the character code modulo 256 |
| Seqs.FlattenLength | public/content/audioCapture.ts:59 | the merged length is the sum that `reduce` computes over the queue |
| Seqs.FlattenPrefix | public/content/audioCapture.ts:63-66 | copying one more chunk appends it and adds its length to the offset |
| Seqs.PrefixTotal | public/content/audioCapture.ts:63-66 | the running offset never passes the total |
| Files.FileSystem.constructor | server/youtubeDownloader.js:75-77 | the file system starts with the given files |
| Files.FileSystem.Exists | server/youtubeDownloader.js:75 | `existsSync` is true exactly for a present path |
| Files.FileSystem.Unlink | server/whisperTranscriber.js:90-94 | it reports a removal exactly when the path was present, and only that path goes |
| Files.FileSystem.Write | server/server.js:49 | `writeFileSync` sets that path's contents and nothing else |
| UsageDb.HexDigitValue | server/database.js:72 | a hexadecimal digit has a value below 16 |
| UsageDb.DecimalPrefix | server/database.js:72 | the longest leading run of decimal digits |
| UsageDb.HexPrefix | server/database.js:72 | the longest leading run of hexadecimal digits, for a `0x` prefix |
| UsageDb.ParseInt | server/database.js:72 | `parseInt` without a radix: leading white space, one sign, a `0x` prefix, the longest digit run, `None` for `NaN`; `ParseDecimal` proves it reads back every decimal rendering |
| UsageDb.UsageFromOutput | server/database.js:72 | the first `\|`-separated column parsed, 0 for empty output or `NaN`; `UsageOfDecimal` and `UsageReadBack` prove it gives back the stored value |
| UsageDb.DecimalPrefixOfDigits | server/database.js:72 | a string of digits is its own leading digit run |
| UsageDb.ParseDecimal | server/database.js:72 | `parseInt` reads back every integer written in decimal |
| UsageDb.DecimalShape | server/database.js:72 | a rendered integer has no outer white space and no `\|` |
| UsageDb.TrimLine | server/database.js:32 | trimming sqlite's output line gives the value back |
| UsageDb.UsageReadBack | server/database.js:69-73 | the usage read is the stored `seconds_used`, or 0 when the row is missing |
| UsageDb.UsageOfDecimal | server/database.js:72 | an integer printed in decimal as the only column reads back as itself |
| UsageDb.ParseDigits | server/database.js:72 | a run of digits takes the decimal branch of `parseInt` and is read in full |
| UsageDb.AddTwice | server/database.js:76-91 | two additions to one user and day accumulate, and the second does not overwrite the first |
| UsageDb.AddOtherKeys | server/database.js:80-88 | an addition leaves every other user and day as it was, and adds no other row |
| UsageDb.Ledger.constructor | server/database.js:55-63 | the table starts empty |
| UsageDb.SqliteError | server/database.js:16-36 | the message a failed sqlite3 call rejects with: never empty; the process's stderr when it printed any, else `SQLite command failed` |
| UsageDb.Ledger.GetUserUsage | server/database.js:69-73 | returns the stored usage of the user on that day, 0 without a row; a rejected sqlite3 call is passed on |
| UsageDb.Ledger.AddUserUsage | server/database.js:76-91 | returns the old usage plus `seconds`, and only that row changes, to that value; a rejected read or write is passed on and changes nothing |
| ResetDb.EscapeQuotes | server/resetdb.js:26 | escaping never shortens the id |
| ResetDb.EscapeRoundTrip | server/resetdb.js:26 | no quote of the escaped id stands alone, and SQL reads the literal back as the original id |
| ResetDb.ZeroAll | server/resetdb.js:19-22 | `--all` keeps every row and sets each to 0 |
| ResetDb.ZeroUser | server/resetdb.js:25-31 | `--user` keeps every row, sets that user's rows to 0 and leaves the others |
| ResetDb.ZeroUserReads | server/resetdb.js:25-31 | after a reset of one user, that user reads 0 on every day and the other users read as before |
| ResetDb.ZeroAllReads | server/resetdb.js:19-22 | after `--all`, every user reads 0 on every day |
| ResetDb.RunReset | server/resetdb.js:13-41 | exit 1 without arguments or with invalid ones and nothing changed; exit 0 after the chosen reset; exit 2 when sqlite fails |
| Translator.ArrayTexts | server/translator.js:21-28 | one text per array item, in order |
| Translator.SegmentTexts | server/translator.js:37-40 | one text per segment, in order |
| Translator.NormalizeInput | server/translator.js:17-51 | the branch order of `normalizeInputToString`; the `Normalize…` lemmas state what each branch gives |
| Translator.NormalizeArrayAppend | server/translator.js:20-31 | an array normalises part by part, with one space between non-empty parts and no gap for empty items |
| Translator.NormalizeArrayEmpty | server/translator.js:20-31 | an array normalises to "" exactly when every item gives "" |
| Translator.NormalizeSingleton | server/translator.js:22-28 | a one-item array normalises to that item's text |
| Translator.NormalizeSegmentsLikeArray | server/translator.js:36-43 | an object's `segments` normalise like the same list given as an array when every segment has `text` |
| Translator.NormalizeObjectPrecedence | server/translator.js:32-43 | a string `fullText` wins over `text` and `segments`, and a string `text` wins over `segments` |
| Translator.TokenBudget | server/translator.js:73-78 | the budget lies between 400 and 4000 tokens |
| Translator.TokenBudgetMonotone | server/translator.js:73-78 | a longer input never gets a smaller budget |
| Translator.SizeMaxTokens | server/translator.js:73-78 | the four overriding threshold tests give the budget |
| Translator.ReplyText | server/translator.js:107-110 | the first non-empty trimmed text of the reply; none exactly when both candidates trim to "" |
| Translator.TranslateWithQuota | server/translator.js:56-127 | no user: refused. Empty text: the sentinel with no call. A rejected quota read: that error, with no call and no charge. Used up: refused with no call. Otherwise one call with the trimmed text and its budget; usage is added only after a non-empty translation and is reported as the new total; a rejected add charges nothing, a rejected read-back keeps the charge and reports the error |
| Translator.TranslateNormalized | server/translator.js:65-122 | a rejected quota read or usage at the limit refuses the request unsent; otherwise exactly one request with the text and its token budget goes out and its reply is settled |
| Translator.SettleReply | server/translator.js:107-122 | a failed call or an empty reply records no usage; a non-empty reply records the duration and reports the new total with the limit, or the ledger's error |
| Translator.Recorded | server/translator.js:115-126 | the total is reported only when none of the three ledger calls rejects, and is then the old total plus the duration; a rejected read or write of `addUserUsage` leaves the table; once the write went through the charge stays even when the read-back rejects; the error is the first rejection |
| Translator.RecordUsage | server/translator.js:115-116 | the new total and the table are those of `Recorded`: the old total plus the duration, or the first rejection |
| Whisper.FirstSegmentList | server/whisperTranscriber.js:44-47 | the first value that is a segment list; none exactly when no value is one |
| Whisper.ExtractSegments | server/whisperTranscriber.js:25-49 | falsy input gives no segments; a segment list is taken as it is; an array `segments` is taken; it throws only for a one-element array holding `null` or `undefined`, and the error is the TypeError's message `Cannot read properties of … (reading 'segments')` |
| Whisper.ExtractSegmentsOrigin | server/whisperTranscriber.js:25-49 | every non-empty result is one of the places looked at, in the order they are looked at |
| Whisper.FirstSegmentListAt | server/whisperTranscriber.js:44-47 | the list found is the one at the lowest index |
| Whisper.ExtractFromOtherKey | server/whisperTranscriber.js:44-47 | a list under another key is found when `segments` and `chunks` are no arrays |
| Whisper.SegmentText | server/whisperTranscriber.js:133 | a segment text has no outer white space |
| Whisper.FirstNullish | server/whisperTranscriber.js:130-134 | the index of the first `null` or `undefined` segment, the one the map throws on |
| Whisper.NormalizeSegments | server/whisperTranscriber.js:130-134 | succeeds exactly when no segment is nullish, keeps count and order, and trims each text; otherwise the error is the TypeError's message `Cannot read properties of … (reading 'start')` for the first nullish segment |
| Whisper.NormalizeSegmentsKeepsOrder | server/whisperTranscriber.js:130-134 | each segment keeps its position, its trimmed text, its numeric times, and 0 for a missing time |
| Whisper.Texts | server/whisperTranscriber.js:137 | the texts of the segments, in order |
| Whisper.JoinTrimmed | server/whisperTranscriber.js:138-140 | joining trimmed non-empty words with spaces leaves nothing for the final `trim()` |
| Whisper.NonEmptyKeepsTrimmed | server/whisperTranscriber.js:138 | dropping empty words keeps the others trimmed |
| Whisper.FullTextIsJoin | server/whisperTranscriber.js:136-140 | `fullText` is the non-empty segment texts, in order, joined by single spaces |
| Whisper.CollectStderr | server/whisperTranscriber.js:78-79 | stderr is the chunks in arrival order |
| Whisper.CloseOutcome | server/whisperTranscriber.js:96-150 | the `close` handler's decision after the audio file is gone, in the source's order: exit code, JSON file present, JSON parses, segments; `CloseOutcomeSuccess` states what a transcript needs |
| Whisper.CloseOutcomeSuccess | server/whisperTranscriber.js:96-150 | a transcript comes only from exit code 0, a JSON file that parses and at least one segment; it keeps their count |
| Whisper.OnClose | server/whisperTranscriber.js:88-154 | the audio file is always removed; the JSON file is removed only when a transcript is produced |
| Whisper.SettleClose | server/whisperTranscriber.js:96-150 | a non-zero code, a missing or malformed JSON file or no segments end in the matching error with the JSON file kept; a transcript removes it |
| Whisper.RunWhisper | server/whisperTranscriber.js:56-156 | a process that fails to start rejects with "Failed to start Whisper process: …" and the `close` that follows still removes the audio file; otherwise the JSON file is written, the close handler decides the result, the audio file is removed, the JSON file is removed only on success, and every other file is kept |
| Downloader.UntilAmp | server/youtubeDownloader.js:67-70 | the longest prefix without `&` |
| Downloader.ListMatchLen | server/youtubeDownloader.js:68 | a `&list=` match ends at the end of the text or at the next `&` |
| Downloader.DigitRun | server/youtubeDownloader.js:69 | the longest leading run of digits |
| Downloader.TimeMatchLen | server/youtubeDownloader.js:69 | a `&t=` match starts with `&` and has at least one digit |
| Downloader.RemoveList | server/youtubeDownloader.js:68 | one left-to-right pass of `/&list=[^&]+/g`; it only deletes, and `RemoveListComplete` states that no match survives it |
| Downloader.RemoveTime | server/youtubeDownloader.js:69 | one left-to-right pass of `/&t=\d+s?/g`; it only deletes, and `TimeRemovalSinglePass` shows a match it creates is not taken |
| Downloader.CleanUrl | server/youtubeDownloader.js:67-70 | the list deletion, then the time deletion, then `trim()`; never longer than the URL |
| Downloader.RemoveListKeepsAmpStart | server/youtubeDownloader.js:68 | after a removal at an `&`, what remains is empty or starts with `&` |
| Downloader.RemoveListKeepsHead | server/youtubeDownloader.js:68 | the text before the first `&` survives the list deletion |
| Downloader.RemoveListStart | server/youtubeDownloader.js:68 | a character where no match starts is copied |
| Downloader.RemoveTimeStart | server/youtubeDownloader.js:69 | a character where no timestamp match starts is copied |
| Downloader.TimeNoMatchUnlessT | server/youtubeDownloader.js:69 | no timestamp match starts at an `&` not followed by `t` |
| Downloader.ListMatchByHead | server/youtubeDownloader.js:68 | whether a match starts depends only on the text up to the next `&` |
| Downloader.RemoveListComplete | server/youtubeDownloader.js:68 | no `&list=` match is left after the global deletion |
| Downloader.RemoveListNoAmp | server/youtubeDownloader.js:68 | text without `&` has no list parameter to delete |
| Downloader.RemoveTimeNoAmp | server/youtubeDownloader.js:69 | text without `&` has no time parameter to delete |
| Downloader.CleanUrlWithoutAmp | server/youtubeDownloader.js:67-70 | a URL without `&` is only trimmed |
| Downloader.RemoveSkipsAmpFree | server/youtubeDownloader.js:68-69 | both deletions copy text before the first `&` unchanged |
| Downloader.RemoveListSkipsAmpFree | server/youtubeDownloader.js:68 | the list deletion copies text without `&` and goes on after it |
| Downloader.RemoveTimeSkipsAmpFree | server/youtubeDownloader.js:69 | the time deletion copies text without `&` and goes on after it |
| Downloader.CleaningKeepsHead | server/youtubeDownloader.js:67-70 | the part of the URL before its first `&` survives cleaning, at the front |
| Downloader.TimeRemovalSinglePass | server/youtubeDownloader.js:69 | one pass of the time deletion can leave a new `&t=` match behind |
| Downloader.SecondStampCut | server/youtubeDownloader.js:69 | cutting `&t=1` out of `&t=1t=2` leaves `t=2`, which the same pass does not look at again |
| Downloader.TimeParamKept | server/youtubeDownloader.js:68 | the list deletion keeps a following time parameter |
| Downloader.BareListNoMatch | server/youtubeDownloader.js:68 | an empty `&list=` value is no match |
| Downloader.BareListKept | server/youtubeDownloader.js:68 | an empty `&list=` value survives the list deletion |
| Downloader.UntilAmpSkips | server/youtubeDownloader.js:67-70 | the prefix before `&` extends across text without `&` |
| Downloader.StampCut | server/youtubeDownloader.js:69 | `&t=1` before text without `&` that starts with neither a digit nor `s` is cut out, and that text is kept |
| Downloader.TimeCutJoins | server/youtubeDownloader.js:69 | an `&` not followed by `t`, with the text up to the next `&`, passes the time deletion unchanged and the deletion goes on after it |
| Downloader.TimeTailCut | server/youtubeDownloader.js:69 | the time deletion cuts `&t=1` out of `&t=1x` and leaves the `x` |
| Downloader.ListCanSurviveCleaning | server/youtubeDownloader.js:67-70 | a cleaned URL can still hold a list parameter, because the time deletion runs second |
| Downloader.BuildArgs | server/youtubeDownloader.js:86-98 | the fixed options, the ffmpeg location and the output come first; the cookies and the proxy follow only when present; the URL comes last |
| Downloader.ArgsRoundTrip | server/youtubeDownloader.js:86-98 | the argument vector reads back as the values it was made from |
| Downloader.PrepareSpawn | server/youtubeDownloader.js:67-98 | the program and arguments are those of `SpawnFor` on the files present: bundled yt-dlp and ffmpeg when they exist, cookies when the file exists |
| Downloader.DownloadYouTubeAudio | server/youtubeDownloader.js:62-120 | no URL: rejected with nothing run. Otherwise yt-dlp is spawned with the bundled binaries and cookies when present; a process that cannot start ends the server with the promise unsettled; success iff exit 0 and the file exists; a failed run leaves no output file |
| Downloader.DownloadYouTubeAudioHandlingError | server/youtubeDownloader.js:100-114 | with an `error` listener the promise always settles: a process that cannot start rejects with its error and removes a file at the output path; the other outcomes are those of `DownloadYouTubeAudio` |
| Downloader.SettleRun | server/youtubeDownloader.js:106-115 | success exactly when the exit code is 0 and the output file exists; a failure removes the partial output |
| Downloader.ProxyLatch.constructor | server/youtubeDownloader.js:27 | the latch starts unsettled |
| Downloader.ProxyLatch.Finish | server/youtubeDownloader.js:27-33 | only the first call settles the promise |
| Downloader.SettleTwice | server/youtubeDownloader.js:27-33 | a settled latch keeps its first value |
| Server.PipelineSequencing | server/server.js:21-40 | without a url nothing runs; the stages run as a prefix of download, transcribe and translate, each fed the previous result; a 200 only when all three succeed |
| Server.PipelineFailure | server/server.js:36-39 | a failed download, transcription or translation answers 500 with that stage's message, and nothing runs after it |
| Server.Preload | server/server.js:21-40 | `/preload` is the pipeline with the whole transcript handed to the translator |
| Server.Pipeline | server/server.js:21-81 | the shape both routes share: no `url` answers 400; otherwise download, transcription and the third stage run in order, the first failure answers 500 with its message, and success builds the body |
| Server.PreloadSuccess | server/server.js:35 | a 200 answers `success: true` with the transcript and its translation |
| Server.TranslateVideo | server/server.js:56-81 | `/api/translateVideo` is the pipeline over the transcript's segments |
| Server.TranslateVideoAsWrittenFails | server/server.js:70 | with `translateSegments` undefined, every request that reaches it fails with a ReferenceError |
| Server.TranslateVideoWithTranslator | server/server.js:70-76 | with a segment translator defined, the route answers 200 with the translated captions |
| Server.UploadCookies | server/server.js:43-54 | missing cookies: 400; non-string cookies: 500 with the `ERR_INVALID_ARG_TYPE` text ending in Node's description of the value; a write error: 500 with its text; otherwise the cookie file holds the text and the answer is `ok` |
| Server.StoreCookies | server/server.js:45-53 | the same outcomes, stated on the `cookies` value itself |
| Server.Health | server/server.js:83-85 | always 200 with status `ok` |
| BackgroundWorker.NetscapeDomain | src/background/index.ts:75-80 | an empty domain stays empty; otherwise exactly one leading dot |
| BackgroundWorker.NetscapeDomainIdempotent | src/background/index.ts:75-80 | a dot is never doubled |
| BackgroundWorker.ExpiryBounds | src/background/index.ts:84-86 | the expiry column is the cookie's date rounded down to whole seconds, or one year after now in whole seconds |
| BackgroundWorker.NetscapeLines | src/background/index.ts:72-93 | the header line, then one line per cookie in input order |
| BackgroundWorker.CookieLines | src/background/index.ts:73-91 | one line per cookie, each the cookie's columns, in input order |
| BackgroundWorker.CookieFields | src/background/index.ts:75-88 | the seven Netscape columns of one cookie: dotted domain, subdomain flag, path or `/`, secure flag, expiry, name, value |
| BackgroundWorker.CookieLine | src/background/index.ts:89-91 | the columns joined with tabs; `NetscapeTextLines` proves the lines read back |
| BackgroundWorker.CookiesToNetscape | src/background/index.ts:72-94 | the file is its lines joined by newlines |
| BackgroundWorker.NotInJoin | src/background/index.ts:89-93 | a character in neither the parts nor the separator is not in the join |
| BackgroundWorker.NotInDecimal | src/background/index.ts:84-86 | a decimal number holds only digits and `-` |
| BackgroundWorker.CookieFieldsFreeOf | src/background/index.ts:81-88 | no column holds a character the cookie's own fields do not hold |
| BackgroundWorker.CookieLineColumns | src/background/index.ts:89-91 | a line splits at its tabs back into its seven columns when the cookie holds no tab |
| BackgroundWorker.NetscapeTextLines | src/background/index.ts:93 | the file splits at newlines back into its lines when no cookie holds a newline |
| BackgroundWorker.LinesFreeOfNewline | src/background/index.ts:72-93 | when no cookie field holds a newline, no line of the file does |
| BackgroundWorker.CookieLineFreeOfNewline | src/background/index.ts:88-90 | a cookie line holds a newline only if one of the cookie's own fields does |
| BackgroundWorker.Port.constructor | src/background/index.ts:24 | a port carries its name |
| BackgroundWorker.RemovePort | src/background/index.ts:28-31 | `filter((p) => p !== port)`: never longer than the list; `RemovePortContents` states which ports remain |
| BackgroundWorker.RemovePortContents | src/background/index.ts:28-31 | the filter removes exactly the disconnected port and keeps the others |
| BackgroundWorker.RemoveAbsent | src/background/index.ts:28-31 | removing an unlisted port keeps the list |
| BackgroundWorker.RemoveOnce | src/background/index.ts:28-31 | removing a port listed once keeps the others in order |
| BackgroundWorker.PopupRegistry.constructor | src/background/index.ts:7 | no popup is connected at first |
| BackgroundWorker.PopupRegistry.Connect | src/background/index.ts:24-40 | a logger port is appended and greeted with the idle status; other ports are ignored |
| BackgroundWorker.PopupRegistry.Disconnect | src/background/index.ts:28-31 | a disconnecting logger port is filtered out and the list stays without repeats |
| BackgroundWorker.PopupRegistry.SendToPopups | src/background/index.ts:43-51 | one delivery per listed port, in list order |
| BackgroundWorker.RemoveKeepsDistinct | src/background/index.ts:28-31 | filtering keeps the list without repeats |
| BackgroundWorker.ConnectThenDisconnect | src/background/index.ts:24-31 | a popup that connects and then disconnects leaves the list as it found it |
| BackgroundWorker.ForwardedCaptions | src/background/index.ts:211-213 | the English segments when present, else one caption from 0 to 9999 with the Persian text |
| BackgroundWorker.ErrorString | src/background/index.ts:203-220 | `String(new Error(message))` is `Error` for an empty message, else `Error: ` followed by the message |
| BackgroundWorker.PersianSubsEffects | src/background/index.ts:188-224 | exactly one message to the popups: `String(err)` of a rejected fetch, the TypeError for a nullish body, `String(new Error(data.error \|\| "Server error"))` when `success` is falsy, or the TRANSCRIPT with `data.persian \|\| "No text"`; the tab gets the captions only on success with a tab id |
| BackgroundWorker.FallbackReachesTab | src/background/index.ts:206-214 | a reply without English segments reaches the tab as one caption carrying the Persian text |
| BackgroundScript.PostJson | public/background/index.js:7-20 | the server's JSON, or `success: false` with the error message |
| BackgroundScript.CookiePairs | public/background/index.js:46 | one `name=value` per cookie, in order |
| BackgroundScript.CookieHeaderAppend | public/background/index.js:46 | no cookies give ""; each cookie appends `; name=value` |
| BackgroundScript.UploadUserId | public/background/index.js:38-42 | the message's user id, else the stored one, else `anonymous_user`; a storage failure is an error |
| BackgroundScript.PreloadUserId | public/background/index.js:76 | the message's user id, else the cached one, else `anonymous_user` |
| BackgroundScript.BackgroundCache.constructor | public/background/index.js:4-5 | nothing cached at first |
| BackgroundScript.BackgroundCache.UploadCookies | public/background/index.js:35-65 | caches the user id and the cookie header, posts both, and answers `ok` with the server's reply, or an error |
| BackgroundScript.BackgroundCache.PreloadVideo | public/background/index.js:67-94 | no video URL: an error and no post; otherwise one post to `/preload` and the result handed back |
| BackgroundScript.BackgroundCache.Dispatch | public/background/index.js:22-33 | an upload message gets every outcome of `UploadCookies` (response, post, cached id and header); a preload message gets the post and the server's answer and leaves the cache; an unknown type answers `Unknown message type` with no post |
| AudioUtils.Clamp | src/utils/audioUtils.ts:12 | the value is limited to [-1, 1] and kept inside it |
| AudioUtils.Trunc | src/utils/audioUtils.ts:13 | storing into an `Int16Array` rounds toward zero |
| AudioUtils.SampleMonotone | src/utils/audioUtils.ts:7-17 | the conversion keeps the order of samples |
| AudioUtils.SampleSaturates | src/utils/audioUtils.ts:7-17 | 1 and above give 32767, -1 and below give -32768, and 0 gives 0 |
| AudioUtils.Float32ToInt16 | src/utils/audioUtils.ts:7-17 | a new array of the same length, each sample converted |
| AudioUtils.Int16ToArrayBuffer | src/utils/audioUtils.ts:22-26 | the buffer holds each sample's two bytes, in order |
| AudioUtils.ArrayBufferHoldsSamples | src/utils/audioUtils.ts:22-26 | the buffer reads back as the samples given |
| AudioUtils.ChunkFloat32Array | src/utils/audioUtils.ts:33-42 | the chunks concatenate to the input; all but the last are full; there are ceil(n / size) of them |
| AudioUtils.FullChunks | src/utils/audioUtils.ts:33-42 | full chunks hold size elements each |
| AudioUtils.ChunkCount | src/utils/audioUtils.ts:33-42 | full chunks and a last partial one number ceil(n / size) |
| AudioUtils.CeilCount | src/utils/audioUtils.ts:33-42 | a count between the bounds is the ceiling |
| AudioUtils.MulStrict | src/utils/audioUtils.ts:33-42 | a strict multiple order gives a strict order |
| AudioCapture.Overwrite | public/content/audioCapture.ts:27-47 | a write keeps the buffer's length |
| AudioCapture.WriteString | public/content/audioCapture.ts:49-53 | the codes of the characters are written from the offset, and nothing else changes |
| AudioCapture.SetUint32 | public/content/audioCapture.ts:32 | four little-endian bytes at the offset, and nothing else changes |
| AudioCapture.SetUint16 | public/content/audioCapture.ts:36 | two little-endian bytes at the offset, and nothing else changes |
| AudioCapture.WavHeader | public/content/audioCapture.ts:31-43 | the header is 44 bytes |
| AudioCapture.OverwriteTwice | public/content/audioCapture.ts:31-43 | two writes side by side are one write of both |
| AudioCapture.WriteRiff | public/content/audioCapture.ts:31-33 | bytes 0 to 11 get the RIFF descriptor |
| AudioCapture.WriteFmt | public/content/audioCapture.ts:34-41 | bytes 12 to 35 get the `fmt ` sub-chunk |
| AudioCapture.WriteDataHeader | public/content/audioCapture.ts:42-43 | bytes 36 to 43 get the `data` header |
| AudioCapture.EncodeWav | public/content/audioCapture.ts:27-47 | a new buffer that is exactly the WAV file of the samples |
| AudioCapture.WriteSamples | public/content/audioCapture.ts:45 | the sample bytes land from offset 44 and the header before them is untouched |
| AudioCapture.WavParts | public/content/audioCapture.ts:28-45 | the file is the three header parts, then the sample bytes |
| AudioCapture.RiffFields | public/content/audioCapture.ts:31-33 | `RIFF`, 36 + 2n modulo 2^32, `WAVE` |
| AudioCapture.FmtFields | public/content/audioCapture.ts:34-41 | `fmt `, 16, PCM, mono, the rate, the byte rate, block align 2, 16 bits |
| AudioCapture.DataFields | public/content/audioCapture.ts:42-43 | `data` and 2n modulo 2^32 |
| AudioCapture.RiffAt | public/content/audioCapture.ts:31-33 | the RIFF fields read back at offsets 0, 4 and 8 |
| AudioCapture.FmtAt | public/content/audioCapture.ts:34-41 | the `fmt ` fields read back at offsets 12 to 34 |
| AudioCapture.DataAt | public/content/audioCapture.ts:42-43 | the `data` fields read back at offsets 36 and 40 |
| AudioCapture.WavLayout | public/content/audioCapture.ts:27-47 | a file of n samples is 44 + 2n bytes, and every header field reads back at its offset |
| AudioCapture.WavFile | public/content/audioCapture.ts:27-47 | the bytes `encodeWAV` returns: the 44-byte header, then the samples' bytes; `WavLayout` reads every field back |
| AudioCapture.WavSamples | public/content/audioCapture.ts:45 | from offset 44 on, the file holds the sample bytes in order |
| AudioCapture.BinaryString | public/content/audioCapture.ts:16-20 | one character per byte, its code the byte's value |
| AudioCapture.SetAt | public/content/audioCapture.ts:64 | the chunk is copied in at the offset, and nothing else changes |
| AudioCapture.Merge | public/content/audioCapture.ts:59-66 | the merged samples are the queued chunks in order |
| AudioCapture.Capture.constructor | public/content/audioCapture.ts:8-12 | not started, empty queue, rate 44100 |
| AudioCapture.Capture.SendBufferIfReady | public/content/audioCapture.ts:58-78 | sends exactly when two seconds are queued or forced; a send carries one character per byte of the WAV of the merged queue, its code equal to the byte, and empties the queue; otherwise nothing changes |
| AudioCapture.Capture.OnWorkletMessage | public/content/audioCapture.ts:141-146 | the samples are queued, and sent with the rest once two seconds are queued |
| AudioCapture.Capture.OnQuietTimeout | public/content/audioCapture.ts:147-150 | whatever is queued is sent, however little |
| AudioCapture.Capture.CaptureYouTubeAudio | public/content/audioCapture.ts:113-164 | a second call while started does nothing; without a video the flag is reset for a retry; otherwise the rate of the audio context is adopted |
| Captions.FirstMatch | public/content/caption.js:89 | the lowest index whose caption covers the time; none exactly when no caption does |
| Captions.AtMostOneRunning | public/content/caption.js:85-87 | with every running interval the last one created, at most one interval ticks |
| CaptionPlayer.EnsureBox | public/content/caption.js:33-65 | an existing box is kept; a new one is not visible |
| CaptionPlayer.ShowBox | public/content/caption.js:12-17 | with a box, it is visible with the text; without one, nothing |
| CaptionPlayer.HideBox | public/content/caption.js:22-24 | the box becomes transparent, keeping its text and display |
| CaptionPlayer.FadeBox | public/content/caption.js:25-27 | a box still transparent is no longer displayed; a visible one is untouched |
| CaptionPlayer.TickDecision | public/content/caption.js:89-97 | what one tick does: show a matched text that differs from the current one, hide when nothing matches and a text is current, else nothing; `TickTracksTime` and `TickSettles` state its meaning |
| CaptionPlayer.TickTracksTime | public/content/caption.js:87-98 | after a tick the current text is the text under the time; a tick does nothing exactly when that is already so, and hides only when nothing covers the time and a text was current |
| CaptionPlayer.TickSettles | public/content/caption.js:87-98 | a second tick at the same time does nothing |
| CaptionPlayer.Player.constructor | public/content/caption.js:4-7 | no captions, no text, no box, no interval |
| CaptionPlayer.Player.Tick | public/content/caption.js:87-98 | it scans the current captions: shows a new matched text, hides when none matches, and does nothing when the captions are no array |
| CaptionPlayer.Player.FadeTimer | public/content/caption.js:25-27 | only the box changes, as the fade decides |
| CaptionPlayer.Player.StartCaptions | public/content/caption.js:70-104 | the captions are always overwritten; only a non-empty array with a video replaces the interval and caches the list; the current text is kept |
| CaptionPlayer.Player.StopCaptions | public/content/caption.js:109-114 | no interval runs, the box fades, the current text is forgotten |
| CaptionPlayer.Player.OnPause | public/content/caption.js:123-126 | the box fades and the current text is kept |
| CaptionPlayer.Player.OnPauseForgetting | public/content/caption.js:123-126 | the box fades and the current text is forgotten |
| CaptionPlayer.Player.OnPlay | public/content/caption.js:128-136 | captions restart only from a non-empty cache |
| CaptionPlayer.Player.OnShowTimed | public/content/caption.js:142-154 | nothing changes unless the guard passes; then the data is replaced, and a non-empty array makes the box and, with a video, starts exactly one new interval and caches the list |
| CaptionPlayer.Player.OnWindowMessage | public/content/caption.js:159-171 | only a tagged `SHOW_TIMED_SUBS` message that passes the guard changes anything; a non-empty array then makes the box and, with a video, starts exactly one new interval and caches the list |
| CaptionPlayer.PauseResumeAsWritten | public/content/caption.js:123-136 | paused and resumed within one caption, the caption stays hidden |
| CaptionPlayer.PauseResumeForgetting | public/content/caption.js:87-136 | with the pause forgetting the current text, the next tick after resuming shows the caption under the time |
| TimedCaptions.Box.constructor | src/content/captions.js:10-30 | a new box is empty and not displayed |
| TimedCaptions.TimedScript.constructor | src/content/captions.js:4 | no box, no interval |
| TimedCaptions.TimedScript.EnsureBox | src/content/captions.js:5-35 | once there is a box, every call returns it; else the page's box is adopted; else a new one is made |
| TimedCaptions.TimedScript.ShowSubtitle | src/content/captions.js:37-41 | the box, made if need be, shows the text; a page box that is not adopted is left as it was |
| TimedCaptions.TimedScript.HideSubtitle | src/content/captions.js:43-45 | an existing box stops being displayed, and none is made |
| TimedCaptions.TimedScript.StartTimed | src/content/captions.js:48-61 | without a video nothing changes; otherwise the previous interval is cleared and one over the captions replaces it |
| TimedCaptions.TimedScript.Tick | src/content/captions.js:52-60 | the first caption covering the time is shown, or the box is hidden; with no interval running the box is left as it was; a page box that is not adopted is left as it was |
| TimedCaptions.TimedScript.OnMessage | src/content/captions.js:63-70 | `SHOW_PERSIAN_SUB` shows the text; `SHOW_TIMED_SUBS` starts the captions, or none, and leaves the box as it was; other messages change nothing, the box included |
| TimedCaptions.TimedWithoutCaptions | src/content/captions.js:68 | `SHOW_TIMED_SUBS` without captions starts a ticker that hides the box shown before |
| CaptionButton.FallbackText | public/content/addCaptionButton.js:166-191 | the Persian text, else the full text, else the English text, else `No subtitles`; always truthy |
| CaptionButton.ChosenList | public/content/addCaptionButton.js:151 | `data.captions \|\| data.englishSegments \|\| null`; `SelectionOrder` states which list wins |
| CaptionButton.SelectCaptions | public/content/addCaptionButton.js:163-191 | what is cached is always a non-empty array |
| CaptionButton.SelectionOrder | public/content/addCaptionButton.js:163-191 | a truthy `captions` wins and hides `englishSegments`, even when it is empty; a value that is no non-empty array gives the fallback caption |
| CaptionButton.PreloadOutcome | public/content/addCaptionButton.js:136-161 | the server's data when it reports success; otherwise its error, or `Server returned no success` |
| CaptionButton.Page.constructor | public/content/addCaptionButton.js:119-120 | no button, default icon, globals unset |
| CaptionButton.Page.CreateCaptionButton | public/content/addCaptionButton.js:82-120 | an existing button is kept and no second one is made; otherwise one button and the globals' defaults |
| CaptionButton.Page.Click | public/content/addCaptionButton.js:125-222 | without a cache it fetches: a failure shows the error icon and changes nothing else; a success caches the captions, turns the flag on and sends `SHOW_TIMED_SUBS` with them. With a cache it only flips the flag: turning on sends the cached captions again, turning off sends `TOGGLE_PERSIAN_SUBS` / `farsi-toggle-hide`, which no listener handles |
| CaptionButton.Page.ErrorTimer | public/content/addCaptionButton.js:216-221 | the default icon comes back |
| CaptionButton.LoadThenToggle | public/content/addCaptionButton.js:125-222 | the first click fetches and sends the captions; the next two send the toggle-off signal and then the same captions, with no second fetch |

## Left out

- Network, process and disk I/O, timers, the DOM and the chrome extension APIs become inputs and explicit steps. Replies, exit codes, files written by child processes, whether a process starts, which sqlite3 calls reject, `videoFound`, and the element `getElementById` finds are all parameters.
- Concurrency: the read-then-write race of `addUserUsage`, and requests that interleave on the server, are not modelled. Each operation runs to completion.
- The SQL text itself, and the injection that the unescaped ids of server/database.js allow, are not modelled. The table is a map from (user, day) to seconds.
- Floating point: samples and caption times are reals, and JavaScript numbers in the value model are integers. Float32 rounding and the exponent form of `String()` for huge numbers are not modelled.
- `Number()` coercion of whisper times covers numbers, falsy values and `true` only.
- `Pcm.CharByte`: a character outside one UTF-16 unit is taken modulo 256 as a whole code point, where `charCodeAt` would read its first surrogate.
- `btoa` and base64 are not modelled; the audio message carries the binary string handed to `btoa`.
- The byte order of `Int16Array` views is taken to be little-endian.
- `AudioUtils.ChunkFloat32Array`: chunks are copies, so the aliasing of `subarray` views is not modelled.
- `preloadFullVideoAudio` (public/content/audioCapture.ts:83-108) is network and storage I/O and is not modelled. It POSTs `{url: location.href}` to `/preload` and stores a reply's `data.text` as `localStorage.fullTranscript`. It catches and logs every error. `captureYouTubeAudio` awaits it before it builds the audio graph, and the model takes that step as already done. Its `_video` argument is unused.
- `MAX_SECONDS_PER_DAY`: the model takes the limit as an integer. A value of the environment variable that `Number()` turns into `NaN` is not modelled; with it, `used >= MAX_SECONDS_PER_DAY` is always false and the quota never refuses.
- `Downloader.DownloadYouTubeAudio`: the model's `url` is a string. In the source it is whatever the request body held, and it is only tested for truthiness. A truthy `url` that is not a string makes `url.replace` throw inside the `try`, and the catch rejects the download. That path is not modelled.
- `UsageDb.Ledger.constructor`: the ledger starts with an empty table. `CREATE TABLE IF NOT EXISTS` at server/database.js:55-63 keeps the rows of a database file that already exists, and that carried-over state is not modelled.
- The `detectActiveProxy` probes are not modelled, because they are socket I/O; only its settle-once latch is.
- `waitForControls`, `safeSendToBackground`, the MutationObserver of public/content/addCaptionButton.js and its message listener are not modelled. Neither is the button's styling and placement; they are DOM work.
- src/content/addCaptionButton.js, src/content/index.ts, src/index.tsx, the popup and the declaration files are not part of this model.
- `CaptionPlayer.Player`: its cache is a list of captions, while `window.__farsiCachedCaptions` is a JavaScript value that the page shares with the button script.
- Caption fields are numeric `start` and `end` with a string `text`. A caption with other field types, and a truthy non-array `msg.captions` in src/content/captions.js that would throw on every tick, are not modelled.
- The translator of `/preload` is a function parameter, because the imported `translateToPersian` is not exported by server/translator.js; the link failure that this import causes is stated above, not modelled.
- The text of an uncaught error and what Node prints before the server exits are not modelled; `Downloader.ServerExits` carries only the error's message.

## Findings

| source | as written | input that shows it | evidently intended | confidence | as-written member | corrected member |
|---|---|---|---|---|---|---|
| server/server.js:70 | `/api/translateVideo` calls `translateSegments`, which is neither defined nor imported | any request whose download and transcription succeed | translate the segments with a defined translator and answer the captions | not executed | Server.TranslateVideoAsWrittenFails | Server.TranslateVideoWithTranslator |
| public/content/caption.js:123-126 | the `pause` listener hides the box but keeps `currentSubtitle`, so after `play` the tick at line 91 sees the same text and does not show it again | captions `[{start: 0, end: 10, text: "salam"}]`; tick at 1 s, pause, fade, play, tick at 2 s: the box stays hidden | pausing also forgets `currentSubtitle`, so resuming shows the caption under the playback time | not executed | CaptionPlayer.PauseResumeAsWritten | CaptionPlayer.PauseResumeForgetting |
| server/youtubeDownloader.js:100-114 | the yt-dlp child process has a `close` listener and no `error` listener, so a process that cannot be started emits an unhandled `error`, which Node throws outside the `try` and the server exits | no bundled yt-dlp binary and no `yt-dlp` on the PATH: `spawn("yt-dlp", …)` fails with ENOENT | the download rejects with the error, and the server goes on answering | not executed | Downloader.DownloadYouTubeAudio | Downloader.DownloadYouTubeAudioHandlingError |
