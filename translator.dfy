/**
 * server/translator.js: the normalisation of the heterogeneous `text`
 * argument to one string, and `translateWithQuota`, which gates one call to
 * the remote translation backend on the usage ledger, sizes its token
 * budget from the input length, and records usage only after a non-empty
 * translation.
 *
 * The backend (an HTTPS POST to a chat-completions API) is a function from
 * the request the source would send to the reply it gets; the current day
 * and the configured daily cap are parameters.
 */
module Translator {
  import opened Wrappers
  import opened Text
  import opened JsValues
  import opened UsageDb

  /** `MAX_SECONDS_PER_DAY` when the environment does not set it (server/translator.js:12). */
  const DefaultMaxSecondsPerDay := 7200

  /** The text the source returns, instead of a translation, for empty input. */
  const EmptyInputSentinel := "[Empty input]"

  /** The messages of the errors `translateWithQuota` throws itself. */
  const MissingUserError := "userId is required"
  const LimitReachedError := "Daily usage limit reached"
  const EmptyReplyError := "Empty translation result from DeepSeek"

  /** One element of an array input (server/translator.js:22-28). */
  function ArrayItemText(it: Json): string
  {
    if !Truthy(it) then ""
    else if it.Str? then it.s
    else if it.Obj? && Has(it, "text") then ToString(Or(Get(it, "text"), Str("")))
    else ToString(it)
  }

  /** One element of an object's `segments` array (server/translator.js:38-40). */
  function SegmentItemText(s: Json): string
  {
    if Truthy(s) && IsObjectType(s) then ToString(Or(Get(s, "text"), Str(""))) else ToString(s)
  }

  function ArrayTexts(items: seq<Json>): (r: seq<string>)
    ensures |r| == |items|
    ensures forall i :: 0 <= i < |items| ==> r[i] == ArrayItemText(items[i])
  {
    seq(|items|, i requires 0 <= i < |items| => ArrayItemText(items[i]))
  }

  function SegmentTexts(items: seq<Json>): (r: seq<string>)
    ensures |r| == |items|
    ensures forall i :: 0 <= i < |items| ==> r[i] == SegmentItemText(items[i])
  {
    seq(|items|, i requires 0 <= i < |items| => SegmentItemText(items[i]))
  }

  /** `normalizeInputToString(input)` (server/translator.js:17-51). */
  function NormalizeInput(input: Json): string
  {
    if IsNullish(input) then ""
    else if input.Str? then input.s
    else if input.Arr? then JoinWords(ArrayTexts(input.items))
    else if input.Obj? then
      if Has(input, "fullText") && Get(input, "fullText").Str? then Get(input, "fullText").s
      else if Has(input, "text") && Get(input, "text").Str? then Get(input, "text").s
      else if Get(input, "segments").Arr? then JoinWords(SegmentTexts(Get(input, "segments").items))
      else Stringify(input)
    else ToString(input)
  }

  /**
   * An array input normalises part by part: the text of `a + b` is the text
   * of `a` and the text of `b`, with one space between them only when both are
   * non-empty. So items keep their order and empty items leave no gap.
   */
  lemma NormalizeArrayAppend(a: seq<Json>, b: seq<Json>)
    ensures NormalizeInput(Arr(a + b)) ==
      if NormalizeInput(Arr(a)) == "" then NormalizeInput(Arr(b))
      else if NormalizeInput(Arr(b)) == "" then NormalizeInput(Arr(a))
      else NormalizeInput(Arr(a)) + " " + NormalizeInput(Arr(b))
  {
    assert ArrayTexts(a + b) == ArrayTexts(a) + ArrayTexts(b);
    JoinWordsAppend(ArrayTexts(a), ArrayTexts(b));
  }

  /** An array input normalises to "" exactly when every item gives "" (falsy items, empty strings, objects with empty `text`). */
  lemma NormalizeArrayEmpty(items: seq<Json>)
    ensures NormalizeInput(Arr(items)) == "" <==> forall i :: 0 <= i < |items| ==> ArrayItemText(items[i]) == ""
  {
    JoinWordsEmpty(ArrayTexts(items));
  }

  /** A one-item array normalises to that item's text: a string as it is, an object with `text` to `String(text || "")`. */
  lemma NormalizeSingleton(it: Json)
    ensures NormalizeInput(Arr([it])) == ArrayItemText(it)
  {
    assert ArrayTexts([it]) == [ArrayItemText(it)];
    if ArrayItemText(it) == "" {
      assert NonEmpty([ArrayItemText(it)]) == [];
    } else {
      assert NonEmpty([ArrayItemText(it)]) == [ArrayItemText(it)];
    }
  }

  /**
   * An object's `segments` list and the same list given directly as the input
   * normalise alike when every segment is an object that has a `text` key; the
   * two rules differ for other elements (an object without `text` counts as
   * "" in `segments` but as "[object Object]" in an array).
   */
  lemma NormalizeSegmentsLikeArray(fields: seq<(string, Json)>, segs: seq<Json>)
    requires !HasKey(fields, "fullText") && !HasKey(fields, "text")
    requires Lookup(fields, "segments") == Arr(segs)
    requires forall i :: 0 <= i < |segs| ==> segs[i].Obj? && Has(segs[i], "text")
    ensures NormalizeInput(Obj(fields)) == NormalizeInput(Arr(segs))
  {
    assert SegmentTexts(segs) == ArrayTexts(segs);
  }

  /** A string `fullText` wins over `text` and `segments`; a string `text` wins over `segments` (server/translator.js:33-43). */
  lemma NormalizeObjectPrecedence(fields: seq<(string, Json)>)
    ensures Lookup(fields, "fullText").Str? && HasKey(fields, "fullText") ==>
      NormalizeInput(Obj(fields)) == Lookup(fields, "fullText").s
    ensures !(Lookup(fields, "fullText").Str? && HasKey(fields, "fullText")) && Lookup(fields, "text").Str? && HasKey(fields, "text") ==>
      NormalizeInput(Obj(fields)) == Lookup(fields, "text").s
  {
  }

  /** The `max_tokens` budget for a normalised input of `length` UTF-16 units (server/translator.js:73-78). */
  function TokenBudget(length: int): (budget: int)
    ensures 400 <= budget <= 4000
  {
    if length > 30000 then 4000
    else if length > 15000 then 3000
    else if length > 8000 then 2000
    else if length > 2000 then 1000
    else 400
  }

  /** A longer input never gets a smaller budget. */
  lemma TokenBudgetMonotone(a: int, b: int)
    requires a <= b
    ensures TokenBudget(a) <= TokenBudget(b)
  {
  }

  /** `let maxTokens = 400;` then the four threshold tests, each overriding the previous one. */
  method SizeMaxTokens(length: int) returns (maxTokens: int)
    ensures maxTokens == TokenBudget(length)
  {
    maxTokens := 400;
    if length > 2000 { maxTokens := 1000; }
    if length > 8000 { maxTokens := 2000; }
    if length > 15000 { maxTokens := 3000; }
    if length > 30000 { maxTokens := 4000; }
  }

  /** The chat-completions request: the user message and `max_tokens`. */
  datatype BackendRequest = BackendRequest(content: string, maxTokens: int)

  /**
   * What the backend call gives back: a thrown error (network, HTTP status,
   * timeout) or a reply whose `choices[0].message.content` and
   * `choices[0].text` may be absent.
   */
  datatype Reply =
    | Failed(message: string)
    | Replied(messageContent: Option<string>, choiceText: Option<string>)

  datatype Translation =
    | EmptyInput
    | Translated(translated: string, used: int, limit: int)

  function TrimmedOr(o: Option<string>): string
  {
    match o
    case None => ""
    case Some(s) => Trim(s)
  }

  /** `content?.trim() || text?.trim() || null`: the first non-empty trimmed text of the reply. */
  function ReplyText(reply: Reply): (t: Option<string>)
    requires reply.Replied?
    ensures t.Some? ==> t.value != "" && Trimmed(t.value)
    ensures t.None? <==> TrimmedOr(reply.messageContent) == "" && TrimmedOr(reply.choiceText) == ""
  {
    var a := TrimmedOr(reply.messageContent);
    var b := TrimmedOr(reply.choiceText);
    if a != "" then
      TrimIsSlice(reply.messageContent.value);
      Some(a)
    else if b != "" then
      TrimIsSlice(reply.choiceText.value);
      Some(b)
    else None
  }

  /**
   * Which of the four sqlite3 calls of one `translateWithQuota` reject: the
   * quota read (server/translator.js:66), the read and the write inside
   * `addUserUsage` (server/translator.js:115) and the read-back of the new
   * total (server/translator.js:116).
   */
  datatype LedgerFaults = LedgerFaults(
    quotaRead: Option<SqliteFault>, addRead: Option<SqliteFault>,
    addWrite: Option<SqliteFault>, readBack: Option<SqliteFault>)

  /**
   * The new total (or the rejection) and the table after `addUserUsage`
   * and the `getUserUsage` that follows it.
   */
  function Recorded(rows: map<Key, int>, key: Key, seconds: int, f: LedgerFaults): (out: (Result<int>, map<Key, int>))
    // the total is reported only when no call rejects, and it is the old value plus the duration
    ensures out.0.Ok? <==> f.addRead.None? && f.addWrite.None? && f.readBack.None?
    ensures out.0.Ok? ==> out.0.value == Stored(rows, key) + seconds
    // a rejected read or write of addUserUsage charges nothing
    ensures f.addRead.Some? || f.addWrite.Some? ==> out.1 == rows
    // once the write went through the charge stays, even when the read-back rejects
    ensures f.addRead.None? && f.addWrite.None? ==> out.1 == AddRow(rows, key, seconds)
    // the error is the first rejection's message
    ensures out.0.Err? ==>
      out.0.message == SqliteError(
        if f.addRead.Some? then f.addRead.value
        else if f.addWrite.Some? then f.addWrite.value
        else f.readBack.value)
  {
    if f.addRead.Some? then (Err(SqliteError(f.addRead.value)), rows)
    else if f.addWrite.Some? then (Err(SqliteError(f.addWrite.value)), rows)
    else
      var after := AddRow(rows, key, seconds);
      if f.readBack.Some? then (Err(SqliteError(f.readBack.value)), after)
      else (Ok(Stored(after, key)), after)
  }

  /** The result of a non-empty translation `text` once usage is recorded. */
  function Settled(total: Result<int>, text: string, maxSecondsPerDay: int): Result<Translation>
  {
    match total
    case Ok(used) => Ok(Translated(text, used, maxSecondsPerDay))
    case Err(m) => Err(m)
  }

  /**
   * What `translateWithQuota` makes of the backend's reply
   * (server/translator.js:107-122): a thrown error is passed on, an empty
   * reply is an error, and only a non-empty translation adds usage and
   * reports the new total.
   */
  method SettleReply(
    ledger: Ledger, userId: string, durationSeconds: int, today: string, maxSecondsPerDay: int,
    reply: Reply, faults: LedgerFaults)
    returns (r: Result<Translation>)
    modifies ledger
    ensures reply.Failed? ==> r == Err(reply.message) && ledger.rows == old(ledger.rows)
    ensures reply.Replied? && ReplyText(reply).None? ==>
      r == Err(EmptyReplyError) && ledger.rows == old(ledger.rows)
    ensures reply.Replied? && ReplyText(reply).Some? ==>
      var out := Recorded(old(ledger.rows), (userId, today), durationSeconds, faults);
      && r == Settled(out.0, ReplyText(reply).value, maxSecondsPerDay)
      && ledger.rows == out.1
  {
    if reply.Failed? {
      return Err(reply.message);
    }
    var translated := ReplyText(reply);
    if translated.None? {
      return Err(EmptyReplyError);
    }
    var newTotal := RecordUsage(ledger, userId, today, durationSeconds, faults);
    r := Settled(newTotal, translated.value, maxSecondsPerDay);
  }

  /** `addUserUsage` and then `getUserUsage`: the total read back is the old one plus the duration. */
  method RecordUsage(ledger: Ledger, userId: string, today: string, durationSeconds: int, faults: LedgerFaults)
    returns (newTotal: Result<int>)
    modifies ledger
    ensures (newTotal, ledger.rows) == Recorded(old(ledger.rows), (userId, today), durationSeconds, faults)
  {
    var added := ledger.AddUserUsage(userId, today, durationSeconds, faults.addRead, faults.addWrite);
    if added.Err? {
      return Err(added.message);
    }
    newTotal := ledger.GetUserUsage(userId, today, faults.readBack);
  }

  /**
   * `translateWithQuota` from the quota check on, for the user `userId` and
   * the normalised, non-empty text (server/translator.js:65-122).
   */
  method TranslateNormalized(
    ledger: Ledger, userId: string, normalized: string, durationSeconds: int,
    today: string, maxSecondsPerDay: int, backend: BackendRequest -> Reply, faults: LedgerFaults)
    returns (r: Result<Translation>, sent: Option<BackendRequest>)
    modifies ledger
    ensures faults.quotaRead.Some? ==>
      r == Err(SqliteError(faults.quotaRead.value)) && sent == None && ledger.rows == old(ledger.rows)
    ensures faults.quotaRead.None? && old(Stored(ledger.rows, (userId, today))) >= maxSecondsPerDay ==>
      r == Err(LimitReachedError) && sent == None && ledger.rows == old(ledger.rows)
    ensures faults.quotaRead.None? && old(Stored(ledger.rows, (userId, today))) < maxSecondsPerDay ==>
      var request := BackendRequest(normalized, TokenBudget(Utf16Length(normalized)));
      var reply := backend(request);
      && sent == Some(request)
      && (reply.Failed? ==> r == Err(reply.message) && ledger.rows == old(ledger.rows))
      && (reply.Replied? && ReplyText(reply).None? ==>
            r == Err(EmptyReplyError) && ledger.rows == old(ledger.rows))
      && (reply.Replied? && ReplyText(reply).Some? ==>
            var out := Recorded(old(ledger.rows), (userId, today), durationSeconds, faults);
            r == Settled(out.0, ReplyText(reply).value, maxSecondsPerDay) && ledger.rows == out.1)
  {
    sent := None;
    var used := ledger.GetUserUsage(userId, today, faults.quotaRead);
    if used.Err? {
      return Err(used.message), sent;
    }
    if used.value >= maxSecondsPerDay {
      return Err(LimitReachedError), sent;
    }
    var maxTokens := SizeMaxTokens(Utf16Length(normalized));
    var request := BackendRequest(normalized, maxTokens);
    sent := Some(request);
    var reply := backend(request);
    r := SettleReply(ledger, userId, durationSeconds, today, maxSecondsPerDay, reply, faults);
  }

  /**
   * `translateWithQuota({userId, text, durationSeconds})`. `userId` is ""
   * when it is missing. Returns the result (or the thrown error) and the
   * request sent to the backend, if any.
   */
  method TranslateWithQuota(
    ledger: Ledger, userId: string, text: Json, durationSeconds: int,
    today: string, maxSecondsPerDay: int, backend: BackendRequest -> Reply, faults: LedgerFaults)
    returns (r: Result<Translation>, sent: Option<BackendRequest>)
    modifies ledger
    ensures userId == "" ==>
      r == Err(MissingUserError) && sent == None && ledger.rows == old(ledger.rows)
    ensures userId != "" && Trim(NormalizeInput(text)) == "" ==>
      r == Ok(EmptyInput) && sent == None && ledger.rows == old(ledger.rows)
    ensures userId != "" && Trim(NormalizeInput(text)) != "" && faults.quotaRead.Some? ==>
      r == Err(SqliteError(faults.quotaRead.value)) && sent == None && ledger.rows == old(ledger.rows)
    ensures userId != "" && Trim(NormalizeInput(text)) != "" && faults.quotaRead.None? &&
            old(Stored(ledger.rows, (userId, today))) >= maxSecondsPerDay ==>
      r == Err(LimitReachedError) && sent == None && ledger.rows == old(ledger.rows)
    ensures userId != "" && Trim(NormalizeInput(text)) != "" && faults.quotaRead.None? &&
            old(Stored(ledger.rows, (userId, today))) < maxSecondsPerDay ==>
      var normalized := Trim(NormalizeInput(text));
      var request := BackendRequest(normalized, TokenBudget(Utf16Length(normalized)));
      var reply := backend(request);
      && sent == Some(request)
      && (reply.Failed? ==> r == Err(reply.message) && ledger.rows == old(ledger.rows))
      && (reply.Replied? && ReplyText(reply).None? ==>
            r == Err(EmptyReplyError) && ledger.rows == old(ledger.rows))
      && (reply.Replied? && ReplyText(reply).Some? ==>
            var out := Recorded(old(ledger.rows), (userId, today), durationSeconds, faults);
            r == Settled(out.0, ReplyText(reply).value, maxSecondsPerDay) && ledger.rows == out.1)
  {
    sent := None;
    if userId == "" {
      return Err(MissingUserError), sent;
    }
    var normalized := Trim(NormalizeInput(text));
    if normalized == "" {
      return Ok(EmptyInput), sent;
    }
    r, sent := TranslateNormalized(ledger, userId, normalized, durationSeconds, today, maxSecondsPerDay, backend, faults);
  }
}
