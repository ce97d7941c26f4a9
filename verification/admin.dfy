/** The admin import page (app/admin/page.tsx): pasted JSON is validated
    into a preview, then uploaded behind a shared password in consecutive
    batches of `BATCH_SIZE` rows, counting the rows of batches that were
    stored and of batches that failed. Parsing the text itself and the
    database insert are left to the caller: the handlers receive the parsed
    value and an oracle for the result of each insert. */
module Admin {
  import opened Wrappers

  /** The plaintext password that gates the upload. */
  const ADMIN_SECRET: string := "10221022"

  /** Rows per insert call. */
  const BATCH_SIZE: nat := 50

  /** An already-parsed JSON value. Numbers are integers here. */
  datatype Json =
    | JNull
    | JBool(b: bool)
    | JNumber(n: int)
    | JString(s: string)
    | JArray(items: seq<Json>)
    | JObject(fields: map<string, Json>)

  function Min(a: int, b: int): int {
    if a < b then a else b
  }

  // ---------------------------------------------------------------------
  // Validation of the parsed input
  // ---------------------------------------------------------------------

  /** Reading the named field of a non-null value; `None` is `undefined`.
      Only objects have the fields `question`, `options` and `answer`. */
  function Property(v: Json, key: string): (r: Option<Json>)
    ensures r.Some? ==> v.JObject?
    ensures v.JObject? ==> (r.Some? <==> key in v.fields)
  {
    if v.JObject? && key in v.fields then Some(v.fields[key]) else None
  }

  /** JavaScript truthiness: `undefined`, `null`, `false`, `0` and the empty
      string are falsy; every array and object, even an empty one, is truthy. */
  predicate Truthy(v: Option<Json>)
    ensures Truthy(v) ==> v.Some? && !v.value.JNull?
    ensures v.Some? && (v.value.JArray? || v.value.JObject?) ==> Truthy(v)
  {
    match v
    case None => false
    case Some(JNull) => false
    case Some(JBool(b)) => b
    case Some(JNumber(n)) => n != 0
    case Some(JString(s)) => s != ""
    case Some(_) => true
  }

  /** `typeof v === 'number'`. Unlike truthiness it also accepts 0. */
  predicate IsNumber(v: Option<Json>)
    ensures IsNumber(v) ==> v.Some? && v.value.JNumber? && (Truthy(v) <==> v.value.n != 0)
  {
    v.Some? && v.value.JNumber?
  }

  /** The field checks applied to the first element only. An element that
      passes is an object holding all three fields, with a numeric answer. */
  predicate HasRequiredFields(first: Json)
    ensures HasRequiredFields(first) ==>
      first.JObject? && "question" in first.fields && "options" in first.fields &&
      "answer" in first.fields && first.fields["answer"].JNumber?
  {
    Truthy(Property(first, "question")) && Truthy(Property(first, "options")) &&
    IsNumber(Property(first, "answer"))
  }

  /** Why parsing was refused. `SyntaxError` is the text not being JSON;
      `NullFirstElement` is the TypeError raised by reading a field of a
      `null` first element. */
  datatype ParseError = SyntaxError | NotAnArray | EmptyArray | NullFirstElement | MissingFields

  /** The validation of the parse handler; `parsed` is `None` when the text
      was not JSON. Only a non-empty array whose first element has a truthy
      `question`, a truthy `options` and a numeric `answer` is accepted, and
      it is accepted whole. */
  function ParseQuestions(parsed: Option<Json>): (r: Result<seq<Json>, ParseError>)
    ensures r.Ok? <==>
      parsed.Some? && parsed.value.JArray? && |parsed.value.items| > 0 &&
      HasRequiredFields(parsed.value.items[0])
    ensures r.Ok? ==> r.value == parsed.value.items
  {
    match parsed
    case None => Err(SyntaxError)
    case Some(v) =>
      if !v.JArray? then Err(NotAnArray)
      else if |v.items| == 0 then Err(EmptyArray)
      else if v.items[0] == JNull then Err(NullFirstElement)
      else if !HasRequiredFields(v.items[0]) then Err(MissingFields)
      else Ok(v.items)
  }

  /** Anything that is not an array, and the empty array, are refused with
      their own error. */
  lemma ParseRejectsNonArrays(v: Json)
    ensures !v.JArray? ==> ParseQuestions(Some(v)) == Err(NotAnArray)
    ensures v == JArray([]) ==> ParseQuestions(Some(v)) == Err(EmptyArray)
    ensures ParseQuestions(None) == Err(SyntaxError)
  {
  }

  /** Elements after the first are never inspected: appending anything to
      a one-element input does not change the verdict. */
  lemma ParseChecksOnlyFirst(first: Json, rest: seq<Json>)
    ensures ParseQuestions(Some(JArray([first] + rest))).Ok? == ParseQuestions(Some(JArray([first]))).Ok?
    ensures ParseQuestions(Some(JArray([first]))).Err? ==>
      ParseQuestions(Some(JArray([first] + rest))) == ParseQuestions(Some(JArray([first])))
  {
  }

  /** The truthiness edges of the field checks: an empty `options` array and
      an `answer` of 0 pass, an empty `question` or a textual `answer` fail. */
  lemma ParseTruthinessEdges(q: string, opts: seq<Json>)
    requires q != ""
    ensures ParseQuestions(Some(JArray([JObject(map["question" := JString(q), "options" := JArray([]), "answer" := JNumber(0)])]))).Ok?
    ensures ParseQuestions(Some(JArray([JObject(map["question" := JString(""), "options" := JArray(opts), "answer" := JNumber(1)])])))
      == Err(MissingFields)
    ensures ParseQuestions(Some(JArray([JObject(map["question" := JString(q), "options" := JArray(opts), "answer" := JString("1")])])))
      == Err(MissingFields)
    ensures ParseQuestions(Some(JArray([JNull]))) == Err(NullFirstElement)
  {
  }

  // ---------------------------------------------------------------------
  // Batching
  // ---------------------------------------------------------------------

  /** The loop variable at the start of iteration `k`: it starts at 0 and
      grows by `BATCH_SIZE` per iteration. */
  function Offset(k: nat): nat {
    if k == 0 then 0 else Offset(k - 1) + BATCH_SIZE
  }

  /** Iteration `k` starts at row BATCH_SIZE * k. */
  lemma {:induction false} OffsetIsMultiple(k: nat)
    ensures Offset(k) == BATCH_SIZE * k
  {
    if k > 0 {
      OffsetIsMultiple(k - 1);
    }
  }

  /** Later iterations start at least one batch further on. */
  lemma {:induction false} OffsetMonotone(j: nat, k: nat)
    requires j < k
    ensures Offset(j) + BATCH_SIZE <= Offset(k)
    decreases k
  {
    if j < k - 1 {
      OffsetMonotone(j, k - 1);
    }
  }

  /** The number of batches for `n` rows: the least iteration count whose
      offset reaches `n`, i.e. n / BATCH_SIZE rounded up. */
  function NumBatches(n: nat): (count: nat)
    ensures Offset(count) >= n
    ensures count == 0 || Offset(count - 1) < n
  {
    if n == 0 then 0 else 1 + NumBatches(if n <= BATCH_SIZE then 0 else n - BATCH_SIZE)
  }

  /** The two properties of `NumBatches` determine it. */
  lemma NumBatchesUnique(n: nat, count: nat)
    requires Offset(count) >= n
    requires count == 0 || Offset(count - 1) < n
    ensures count == NumBatches(n)
  {
    var c := NumBatches(n);
    if count < c {
      if count < c - 1 {
        OffsetMonotone(count, c - 1);
      }
    } else if count > c {
      if c < count - 1 {
        OffsetMonotone(c, count - 1);
      }
    }
  }

  /** The batch count is the ceiling of n / BATCH_SIZE. */
  lemma NumBatchesIsCeiling(n: nat)
    ensures NumBatches(n) == (n + BATCH_SIZE - 1) / BATCH_SIZE
  {
    var c := NumBatches(n);
    OffsetIsMultiple(c);
    if c > 0 {
      OffsetIsMultiple(c - 1);
    }
  }

  /** `batch.length` for the batch at row `i` of `n` rows: BATCH_SIZE rows,
      fewer at the end, none past it. */
  function BatchLength(n: nat, i: nat): (len: nat)
    ensures len <= BATCH_SIZE
    ensures i < n ==> 0 < len
    ensures i + len <= n || len == 0
    ensures i + BATCH_SIZE <= n ==> len == BATCH_SIZE
    ensures i < n < i + BATCH_SIZE ==> i + len == n
  {
    if i >= n then 0 else Min(i + BATCH_SIZE, n) - i
  }

  /** `data.slice(i, i + BATCH_SIZE)`: the consecutive rows from row `i`,
      as many as `BatchLength` says. */
  function BatchAt(data: seq<Json>, i: nat): (batch: seq<Json>)
    ensures |batch| == BatchLength(|data|, i)
  {
    var start := Min(i, |data|);
    data[start..Min(i + BATCH_SIZE, |data|)]
  }

  /** The batches the upload loop sends when it starts at row `i`: none
      exactly when `i` is already past the data. */
  function BatchesFrom(data: seq<Json>, i: nat): (batches: seq<seq<Json>>)
    ensures batches == [] <==> i >= |data|
    decreases |data| - i
  {
    if i >= |data| then [] else [BatchAt(data, i)] + BatchesFrom(data, i + BATCH_SIZE)
  }

  /** The batches of the whole data: ceil(N / BATCH_SIZE) slices that
      join up to the data. */
  function Batches(data: seq<Json>): (batches: seq<seq<Json>>)
    ensures |batches| == NumBatches(|data|)
    ensures Concat(batches) == data
  {
    BatchesFromLength(data, 0);
    BatchesFromCover(data, 0);
    BatchesFrom(data, 0)
  }

  function Concat(batches: seq<seq<Json>>): seq<Json> {
    if batches == [] then [] else batches[0] + Concat(batches[1..])
  }

  lemma {:induction false} ConcatCons(b: seq<Json>, rest: seq<seq<Json>>)
    ensures Concat([b] + rest) == b + Concat(rest)
  {
    assert ([b] + rest)[1..] == rest;
  }

  /** The batches from row `i` are ceil((|data| - i) / BATCH_SIZE) slices. */
  lemma {:induction false} BatchesFromLength(data: seq<Json>, i: nat)
    requires i <= |data|
    ensures |BatchesFrom(data, i)| == NumBatches(|data| - i)
    decreases |data| - i
  {
    var next := i + BATCH_SIZE;
    if i < |data| && next <= |data| {
      BatchesFromLength(data, next);
    }
  }

  /** The k-th batch from row `i` is the slice starting at row
      i + Offset(k), which lies inside the data. */
  lemma {:induction false} BatchesFromAt(data: seq<Json>, i: nat, k: nat)
    requires k < |BatchesFrom(data, i)|
    ensures i + Offset(k) < |data|
    ensures BatchesFrom(data, i)[k] == BatchAt(data, i + Offset(k))
    decreases k
  {
    if k > 0 {
      var next := i + BATCH_SIZE;
      assert BatchesFrom(data, i)[k] == BatchesFrom(data, next)[k - 1];
      BatchesFromAt(data, next, k - 1);
    }
  }

  /** Every batch holds between 1 and BATCH_SIZE rows. */
  lemma BatchesBounded(data: seq<Json>, i: nat)
    ensures forall k :: 0 <= k < |BatchesFrom(data, i)| ==> 0 < |BatchesFrom(data, i)[k]| <= BATCH_SIZE
  {
    forall k | 0 <= k < |BatchesFrom(data, i)|
      ensures 0 < |BatchesFrom(data, i)[k]| <= BATCH_SIZE
    {
      BatchesFromAt(data, i, k);
    }
  }

  /** The batches from row `i`, joined, are exactly `data[i..]`. */
  lemma {:induction false} BatchesFromCover(data: seq<Json>, i: nat)
    requires i <= |data|
    ensures Concat(BatchesFrom(data, i)) == data[i..]
    decreases |data| - i
  {
    if i < |data| {
      var next := i + BATCH_SIZE;
      var first := BatchAt(data, i);
      ConcatCons(first, BatchesFrom(data, next));
      if next <= |data| {
        BatchesFromCover(data, next);
        assert first == data[i..next];
        assert data[i..] == data[i..next] + data[next..];
      } else {
        assert first == data[i..];
      }
    }
  }

  /** The scenario of 120 imported rows: three batches of 50, 50 and 20. */
  lemma OneHundredTwentyRows(data: seq<Json>)
    requires |data| == 120
    ensures |Batches(data)| == 3
    ensures |Batches(data)[0]| == 50 && |Batches(data)[1]| == 50 && |Batches(data)[2]| == 20
  {
    BatchesFromLength(data, 0);
    NumBatchesIsCeiling(120);
    OffsetIsMultiple(1);
    OffsetIsMultiple(2);
    BatchesFromAt(data, 0, 0);
    BatchesFromAt(data, 0, 1);
    BatchesFromAt(data, 0, 2);
  }

  // ---------------------------------------------------------------------
  // Upload bookkeeping
  // ---------------------------------------------------------------------

  datatype Status = Idle | Parsing | Uploading | Success | Error

  /** One line of the page's log. */
  datatype LogEntry =
    | ParseOk(count: nat)
    | ParseFailed(reason: ParseError)
    | UploadingRange(first: nat, last: nat)
    | BatchFailed(message: string)
    | Finished(success: nat, fail: nat)

  /** The counters and log lines of the upload loop. */
  datatype Tally = Tally(success: nat, fail: nat, log: seq<LogEntry>)

  /** An insert oracle: the result of inserting the batch that starts at
      row `i`, `None` when it was stored, `Some(message)` when the database
      returned an error. */
  type InsertOracle = nat -> Option<string>

  /** One pass of the upload loop for the batch of `len` rows at row `i`:
      it logs the row range, then adds the length to the success counter,
      or logs the error and adds the length to the failure counter. */
  function Step(prev: Tally, i: nat, len: nat, result: Option<string>): (t: Tally)
    ensures t.success + t.fail == prev.success + prev.fail + len
  {
    var announced := prev.log + [UploadingRange(i + 1, i + len)];
    if result.Some? then Tally(prev.success, prev.fail + len, announced + [BatchFailed(result.value)])
    else Tally(prev.success + len, prev.fail, announced)
  }

  /** The state of the upload loop after its first `k` batches. */
  function UploadRun(data: seq<Json>, insert: InsertOracle, k: nat): Tally
  {
    if k == 0 then Tally(0, 0, [])
    else
      var i := Offset(k - 1);
      Step(UploadRun(data, insert, k - 1), i, BatchLength(|data|, i), insert(i))
  }

  /** After k iterations the counters together hold the rows sent so far. */
  lemma {:induction false} UploadRunCounts(data: seq<Json>, insert: InsertOracle, k: nat)
    ensures UploadRun(data, insert, k).success + UploadRun(data, insert, k).fail == Min(Offset(k), |data|)
  {
    if k > 0 {
      UploadRunCounts(data, insert, k - 1);
    }
  }

  predicate BatchSucceeded(insert: InsertOracle, k: nat) {
    insert(Offset(k)).None?
  }

  /** Some rows were stored exactly when some batch was stored, and some
      rows failed exactly when some batch failed. */
  lemma {:induction false} CountsReflectBatches(data: seq<Json>, insert: InsertOracle, k: nat)
    requires k <= NumBatches(|data|)
    ensures UploadRun(data, insert, k).success > 0 <==> exists j: nat :: j < k && BatchSucceeded(insert, j)
    ensures UploadRun(data, insert, k).fail > 0 <==> exists j: nat :: j < k && !BatchSucceeded(insert, j)
  {
    if k > 0 {
      CountsReflectBatches(data, insert, k - 1);
      BatchInside(data, k);
      UploadRunCountStep(data, insert, k);
      if BatchSucceeded(insert, k - 1) {
        assert exists j: nat :: j < k && BatchSucceeded(insert, j);
      } else {
        assert exists j: nat :: j < k && !BatchSucceeded(insert, j);
      }
    }
  }

  /** Within the batch count, every batch starts inside the data. */
  lemma BatchInside(data: seq<Json>, k: nat)
    requires 0 < k <= NumBatches(|data|)
    ensures Offset(k - 1) < |data|
  {
    if k - 1 < NumBatches(|data|) - 1 {
      OffsetMonotone(k - 1, NumBatches(|data|) - 1);
    }
  }

  /** One step of the loop adds the batch's length to exactly one counter. */
  lemma UploadRunCountStep(data: seq<Json>, insert: InsertOracle, k: nat)
    requires 0 < k
    ensures var prev := UploadRun(data, insert, k - 1);
            var t := UploadRun(data, insert, k);
            var len := BatchLength(|data|, Offset(k - 1));
            if BatchSucceeded(insert, k - 1) then t.success == prev.success + len && t.fail == prev.fail
            else t.success == prev.success && t.fail == prev.fail + len
  {
  }

  /** The progress lines of a log, in order. */
  function Announced(log: seq<LogEntry>): seq<LogEntry>
  {
    if log == [] then []
    else
      var last := log[|log| - 1];
      Announced(log[..|log| - 1]) + if last.UploadingRange? then [last] else []
  }

  lemma AnnouncedAppend(log: seq<LogEntry>, e: LogEntry)
    ensures Announced(log + [e]) == Announced(log) + if e.UploadingRange? then [e] else []
  {
    assert (log + [e])[..|log|] == log;
  }

  /** The progress line of batch j: from the row after Offset(j) to
      Offset(j + 1), or to the last row for the final batch. */
  function ProgressLine(data: seq<Json>, j: nat): LogEntry {
    UploadingRange(Offset(j) + 1, Min(Offset(j + 1), |data|))
  }

  /** The progress lines of the first `k` batches, in order: the j-th
      reports the rows of batch j. */
  function ProgressLines(data: seq<Json>, k: nat): (lines: seq<LogEntry>)
    ensures |lines| == k
    ensures forall j :: 0 <= j < k ==> lines[j] == ProgressLine(data, j)
  {
    if k == 0 then [] else ProgressLines(data, k - 1) + [ProgressLine(data, k - 1)]
  }

  /** The log of the first `k` batches holds, in order, exactly one
      progress line per batch, each for its own batch. */
  lemma {:induction false} ProgressReports(data: seq<Json>, insert: InsertOracle, k: nat)
    requires k <= NumBatches(|data|)
    ensures Announced(UploadRun(data, insert, k).log) == ProgressLines(data, k)
  {
    if k > 0 {
      ProgressReports(data, insert, k - 1);
      LastBatchAnnounced(data, insert, k);
    }
  }

  /** The log lines one batch adds after its progress line. */
  function FailureLines(result: Option<string>): seq<LogEntry> {
    if result.Some? then [BatchFailed(result.value)] else []
  }

  lemma UploadRunLogStep(data: seq<Json>, insert: InsertOracle, k: nat)
    requires 0 < k
    ensures UploadRun(data, insert, k).log ==
      UploadRun(data, insert, k - 1).log +
      [UploadingRange(Offset(k - 1) + 1, Offset(k - 1) + BatchLength(|data|, Offset(k - 1)))] +
      FailureLines(insert(Offset(k - 1)))
  {
  }

  /** Within the batch count, batch k - 1 ends at row min(Offset(k), |data|). */
  lemma LastRowOfBatch(data: seq<Json>, k: nat)
    requires 0 < k <= NumBatches(|data|)
    ensures Offset(k - 1) + BatchLength(|data|, Offset(k - 1)) == Min(Offset(k), |data|)
  {
    BatchInside(data, k);
  }

  /** A progress line followed by at most one failure line adds exactly
      that progress line to the announcements. */
  lemma AnnouncedStep(before: seq<LogEntry>, entry: LogEntry, result: Option<string>)
    requires entry.UploadingRange?
    ensures Announced(before + [entry] + FailureLines(result)) == Announced(before) + [entry]
  {
    AnnouncedAppend(before, entry);
    if result.Some? {
      AnnouncedAppend(before + [entry], BatchFailed(result.value));
    } else {
      assert before + [entry] + FailureLines(result) == before + [entry];
    }
  }

  /** One step of the loop adds exactly one progress line, for its own batch. */
  lemma LastBatchAnnounced(data: seq<Json>, insert: InsertOracle, k: nat)
    requires 0 < k <= NumBatches(|data|)
    ensures Announced(UploadRun(data, insert, k).log) ==
      Announced(UploadRun(data, insert, k - 1).log) + [ProgressLine(data, k - 1)]
  {
    var i := Offset(k - 1);
    var before := UploadRun(data, insert, k - 1).log;
    var entry := UploadingRange(i + 1, i + BatchLength(|data|, i));
    UploadRunLogStep(data, insert, k);
    assert UploadRun(data, insert, k).log == before + [entry] + FailureLines(insert(i));
    LastRowOfBatch(data, k);
    assert entry == ProgressLine(data, k - 1);
    AnnouncedStep(before, entry, insert(i));
  }

  /** Sending the batch at row `i` moves it from the batches still to send
      to the batches sent. */
  lemma SentThrough(data: seq<Json>, sent: seq<seq<Json>>, i: nat)
    requires i < |data|
    ensures sent + [BatchAt(data, i)] + BatchesFrom(data, i + BATCH_SIZE) == sent + BatchesFrom(data, i)
  {
    assert BatchesFrom(data, i) == [BatchAt(data, i)] + BatchesFrom(data, i + BATCH_SIZE);
  }

  /** The upload loop: slices the data into consecutive batches, sends each
      to the insert oracle and counts its rows as stored or failed. */
  method UploadBatches(data: seq<Json>, insert: InsertOracle)
    returns (successCount: nat, failCount: nat, log: seq<LogEntry>, sent: seq<seq<Json>>)
    ensures sent == Batches(data)
    ensures |sent| == NumBatches(|data|) && Concat(sent) == data
    ensures forall k :: 0 <= k < |sent| ==> 0 < |sent[k]| <= BATCH_SIZE
    ensures successCount + failCount == |data|
    ensures Tally(successCount, failCount, log) == UploadRun(data, insert, NumBatches(|data|))
  {
    successCount, failCount, log, sent := 0, 0, [], [];
    var i := 0;
    ghost var k := 0;
    while i < |data|
      invariant i == Offset(k)
      invariant k == 0 || Offset(k - 1) < |data|
      invariant sent + BatchesFrom(data, i) == BatchesFrom(data, 0)
      invariant Tally(successCount, failCount, log) == UploadRun(data, insert, k)
    {
      var batch := BatchAt(data, i);
      ghost var before := Tally(successCount, failCount, log);
      SentThrough(data, sent, i);
      log := log + [UploadingRange(i + 1, i + |batch|)];
      sent := sent + [batch];
      var error := insert(i);
      if error.Some? {
        log := log + [BatchFailed(error.value)];
        failCount := failCount + |batch|;
      } else {
        successCount := successCount + |batch|;
      }
      assert Tally(successCount, failCount, log) == Step(before, i, |batch|, error);
      i := i + BATCH_SIZE;
      k := k + 1;
    }
    NumBatchesUnique(|data|, k);
    UploadRunCounts(data, insert, k);
    BatchesBounded(data, 0);
  }

  // ---------------------------------------------------------------------
  // The page state and its handlers
  // ---------------------------------------------------------------------

  class AdminPage {
    var jsonInput: string
    var status: Status
    var logs: seq<LogEntry>
    var previewData: seq<Json>
    var password: string

    constructor ()
      ensures jsonInput == "" && status == Idle && logs == [] && previewData == [] && password == ""
    {
      jsonInput, status, logs, previewData, password := "", Idle, [], [], "";
    }

    /** The text area. */
    method SetJsonInput(text: string)
      modifies this
      ensures jsonInput == text
      ensures status == old(status) && logs == old(logs) && previewData == old(previewData)
      ensures password == old(password)
    {
      jsonInput := text;
    }

    /** The password field. */
    method SetPassword(text: string)
      modifies this
      ensures password == text
      ensures jsonInput == old(jsonInput) && status == old(status) && logs == old(logs)
      ensures previewData == old(previewData)
    {
      password := text;
    }

    /** The parse handler; `parsed` is the result of parsing `jsonInput`.
        The log is reset to the one verdict line. A refused input leaves
        the previous preview in place. */
    method HandleParse(parsed: Option<Json>)
      modifies this
      ensures ParseQuestions(parsed).Ok? ==>
        previewData == ParseQuestions(parsed).value && status == Idle &&
        logs == [ParseOk(|previewData|)]
      ensures ParseQuestions(parsed).Err? ==>
        previewData == old(previewData) && status == Error &&
        logs == [ParseFailed(ParseQuestions(parsed).error)]
      ensures jsonInput == old(jsonInput) && password == old(password)
    {
      status := Parsing;
      logs := [];
      var r := ParseQuestions(parsed);
      match r {
        case Ok(items) =>
          previewData := items;
          logs := logs + [ParseOk(|items|)];
          status := Idle;
        case Err(e) =>
          status := Error;
          logs := logs + [ParseFailed(e)];
      }
    }

    /** The upload handler; `confirmed` is the answer to the confirmation
        dialog. A wrong password or a declined dialog sends nothing and
        changes nothing. Otherwise every batch of the preview is sent, the
        log gains the loop's lines and a final count line, and the input and
        preview are cleared exactly when some rows were stored. */
    method HandleUpload(confirmed: bool, insert: InsertOracle) returns (sent: seq<seq<Json>>)
      modifies this
      ensures password != ADMIN_SECRET || !confirmed ==> sent == [] && unchanged(this)
      ensures password == ADMIN_SECRET && confirmed ==>
        var t := UploadRun(old(previewData), insert, NumBatches(|old(previewData)|));
        sent == Batches(old(previewData)) &&
        status == Success &&
        logs == old(logs) + t.log + [Finished(t.success, t.fail)] &&
        t.success + t.fail == |old(previewData)| &&
        (t.success > 0 ==> jsonInput == "" && previewData == []) &&
        (t.success == 0 ==> jsonInput == old(jsonInput) && previewData == old(previewData))
      ensures password == old(password)
    {
      if password != ADMIN_SECRET {
        return [];
      }
      if !confirmed {
        return [];
      }
      status := Uploading;
      var successCount, failCount, batchLog;
      successCount, failCount, batchLog, sent := UploadBatches(previewData, insert);
      logs := logs + batchLog;
      logs := logs + [Finished(successCount, failCount)];
      status := Success;
      if successCount > 0 {
        jsonInput := "";
        previewData := [];
      }
    }
  }

  /** The input and preview are cleared after an upload exactly when at
      least one batch was stored. */
  lemma ClearedIffSomeBatchStored(data: seq<Json>, insert: InsertOracle)
    ensures UploadRun(data, insert, NumBatches(|data|)).success > 0 <==>
      exists j: nat :: j < NumBatches(|data|) && BatchSucceeded(insert, j)
  {
    CountsReflectBatches(data, insert, NumBatches(|data|));
  }
}
