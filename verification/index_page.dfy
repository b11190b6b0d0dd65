/** The upload page (src/pages/Index.tsx): its two submission handlers, the
    self-rescheduling status check `pollResult` and the shared error handler.
    The page's React state is the field set of class `Page`. Each remote call
    is replaced by its outcome (the value the service client returned or the
    message it threw, as module `Service` computes them), handed in as a
    parameter, and the timer that re-runs `pollResult` by a direct recursive
    call on the outcome of the next check. The pure function `Poll` says what
    a run of checks does; the lemmas about it give the attempt ceiling, the
    time-out and the progress bounds. */
module IndexPage {
  import opened Types
  import opened Service

  const MaxAttempts: nat := 60

  const DefaultErrorText := "An error occurred during transcription."
  const FailedText := "Transcription failed"
  const TimedOutText := "Transcription timed out"

  /** A notification shown to the user. */
  datatype Toast = Toast(title: string, description: string, destructive: bool)

  const ApiKeyToast := Toast("API Key Required", "Please enter your AssemblyAI API key first.", true)
  const CompleteToast := Toast("Transcription Complete", "Your audio has been successfully transcribed.", false)

  /** The text `handleError` shows: the error's message, or a fixed text when
      the message is empty. */
  function ErrorText(message: string): (text: string)
    ensures text != ""
    ensures message != "" ==> text == message
    ensures message == "" ==> text == DefaultErrorText
  {
    if message != "" then message else DefaultErrorText
  }

  function ErrorToast(message: string): Toast {
    Toast("Error", ErrorText(message), true)
  }

  /** A request the page sends to the service. An upload sends the file under
      its own name as a blob typed `Service.BlobType(file)`. */
  datatype RemoteCall =
    | Upload(file: MediaFile)
    | Start(request: TranscriptRequest)
    | Fetch(id: string)

  /** `n` status fetches of job `id`. */
  function Fetches(id: string, n: nat): seq<RemoteCall> {
    if n == 0 then [] else Fetches(id, n - 1) + [Fetch(id)]
  }

  /** The progress a check writes after a reply arrives: 60 plus the elapsed
      share of the 60 attempts, scaled to 40. */
  function CheckProgress(attempts: nat): (p: real)
    ensures 60.0 <= p
    ensures attempts <= MaxAttempts ==> p <= 100.0
    ensures p == 100.0 <==> attempts == MaxAttempts
  {
    60.0 + (attempts as real / MaxAttempts as real) * 40.0
  }

  /** What one check decides. */
  datatype Verdict = Reschedule | Complete(result: TranscriptionResult) | Fail(message: string)

  /** One run of `pollResult`: what `getTranscriptionResult` threw ends the
      loop with that error; a completed job ends it with the result; a job
      reported as failed ends it; any other status reschedules while fewer
      than 60 attempts have been made and times out otherwise. */
  function Decide(attempts: nat, fetched: Result<TranscriptionResult>): (verdict: Verdict)
    ensures fetched.Err? ==> verdict == Fail(fetched.error)
    ensures verdict.Complete? <==> fetched.Ok? && fetched.value.status == "completed"
    ensures verdict.Complete? ==> verdict.result == fetched.value
    ensures verdict.Reschedule? <==>
      fetched.Ok? && fetched.value.status != "completed" && fetched.value.status != "error" && attempts < MaxAttempts
    ensures fetched.Ok? && fetched.value.status == "error" ==> verdict == Fail(FailedText)
    ensures fetched.Ok? && fetched.value.status != "completed" && fetched.value.status != "error" && attempts >= MaxAttempts ==>
      verdict == Fail(TimedOutText)
  {
    match fetched
    case Err(message) => Fail(message)
    case Ok(r) =>
      if r.status == "completed" then Complete(r)
      else if r.status == "error" then Fail(FailedText)
      else if attempts < MaxAttempts then Reschedule
      else Fail(TimedOutText)
  }

  /** The checks of one poll loop: how many ran, the progress values they
      wrote (before any terminal effect) and how the loop ended; `Reschedule`
      means a further check is scheduled whose reply has not arrived. */
  datatype PollRun = PollRun(checks: nat, progress: seq<real>, verdict: Verdict)

  predicate NonDecreasing(s: seq<real>) {
    forall i, j :: 0 <= i < j < |s| ==> s[i] <= s[j]
  }

  /** The loop from a check made with `attempts` earlier reschedulings, fed the
      replies of successive checks. It never makes more than 61 checks in all
      and is left waiting only when it has used up the replies. */
  function Poll(attempts: nat, replies: seq<Result<TranscriptionResult>>): (run: PollRun)
    requires attempts <= MaxAttempts
    ensures run.checks <= |replies| && run.checks <= MaxAttempts - attempts + 1
    ensures replies != [] ==> run.checks >= 1
    ensures run.verdict.Reschedule? ==> run.checks == |replies|
    decreases |replies|
  {
    if replies == [] then PollRun(0, [], Reschedule)
    else
      var verdict := Decide(attempts, replies[0]);
      if verdict.Reschedule? then
        var rest := Poll(attempts + 1, replies[1..]);
        PollRun(1 + rest.checks, Written(attempts, replies[0]) + rest.progress, rest.verdict)
      else
        PollRun(1, Written(attempts, replies[0]), verdict)
  }

  /** The progress a loop writes lies in [60, 100] and never decreases. */
  lemma {:induction false} PollProgress(attempts: nat, replies: seq<Result<TranscriptionResult>>)
    requires attempts <= MaxAttempts
    ensures forall i :: 0 <= i < |Poll(attempts, replies).progress| ==>
      CheckProgress(attempts) <= Poll(attempts, replies).progress[i] <= 100.0
    ensures NonDecreasing(Poll(attempts, replies).progress)
    decreases |replies|
  {
    if replies != [] {
      var w := Written(attempts, replies[0]);
      if Decide(attempts, replies[0]).Reschedule? {
        var rest := Poll(attempts + 1, replies[1..]);
        PollProgress(attempts + 1, replies[1..]);
        var p := w + rest.progress;
        assert Poll(attempts, replies).progress == p;
        forall i | 0 <= i < |p| ensures CheckProgress(attempts) <= p[i] <= 100.0 {
          if i >= |w| { assert p[i] == rest.progress[i - |w|]; }
        }
        forall i, j | 0 <= i < j < |p| ensures p[i] <= p[j] {
          if i >= |w| { assert p[i] == rest.progress[i - |w|] && p[j] == rest.progress[j - |w|]; }
          else { assert p[j] == rest.progress[j - |w|]; }
        }
      }
    }
  }

  /** A check that found the job still queued or processing. */
  predicate InProgress(fetched: Result<TranscriptionResult>) {
    fetched.Ok? && fetched.value.status != "completed" && fetched.value.status != "error"
  }

  /** Each check that sees a job still in progress before the ceiling makes
      exactly one more check: the loop stops at the first reply that ends it,
      after exactly that many checks, with that reply's verdict. */
  lemma {:induction false} PollStopsAtFirstTerminal(attempts: nat, replies: seq<Result<TranscriptionResult>>, k: nat)
    requires attempts + k <= MaxAttempts && k < |replies|
    requires forall i :: 0 <= i < k ==> Decide(attempts + i, replies[i]).Reschedule?
    requires !Decide(attempts + k, replies[k]).Reschedule?
    ensures Poll(attempts, replies).checks == k + 1
    ensures Poll(attempts, replies).verdict == Decide(attempts + k, replies[k])
    decreases k
  {
    if k > 0 {
      var tail := replies[1..];
      assert Decide(attempts, replies[0]).Reschedule?;
      forall i | 0 <= i < k - 1
        ensures Decide(attempts + 1 + i, tail[i]).Reschedule?
      {
        assert tail[i] == replies[i + 1];
      }
      assert tail[k - 1] == replies[k];
      PollStopsAtFirstTerminal(attempts + 1, tail, k - 1);
    }
  }

  /** 61 replies of a job still in progress (attempts 0 to 60) end the loop
      with "Transcription timed out" after exactly 61 checks. */
  lemma PollTimesOut(replies: seq<Result<TranscriptionResult>>)
    requires |replies| >= MaxAttempts + 1
    requires forall i :: 0 <= i <= MaxAttempts ==> InProgress(replies[i])
    ensures Poll(0, replies).checks == MaxAttempts + 1
    ensures Poll(0, replies).verdict == Fail(TimedOutText)
  {
    forall i | 0 <= i < MaxAttempts
      ensures Decide(i, replies[i]).Reschedule?
    {
      assert InProgress(replies[i]);
    }
    assert InProgress(replies[MaxAttempts]);
    PollStopsAtFirstTerminal(0, replies, MaxAttempts);
  }

  /** Two replies of a job in progress and then a completed one: exactly three
      checks, ending with the completed result, having written progress 60,
      then 60 + 40/60, then 60 + 80/60. */
  lemma ThreeChecksComplete(busy: StatusBody, done: StatusBody, text: string)
    requires busy.result.status == "processing" && done.result.status == "completed"
    ensures var run := Poll(0, [GetTranscriptionResult(Response(true, text, busy)),
                                GetTranscriptionResult(Response(true, text, busy)),
                                GetTranscriptionResult(Response(true, text, done))]);
      run.checks == 3 && run.verdict == Complete(done.result)
      && run.progress == [CheckProgress(0), CheckProgress(1), CheckProgress(2)]
  {
    var last := [GetTranscriptionResult(Response(true, text, done))];
    var two := [GetTranscriptionResult(Response(true, text, busy))] + last;
    var outcomes := [GetTranscriptionResult(Response(true, text, busy))] + two;
    assert last[0] == Ok(done.result) && two[0] == Ok(busy.result);
    assert last[1..] == [];
    assert Poll(2, last) == PollRun(1, [CheckProgress(2)], Complete(done.result));
    assert two[1..] == last;
    assert Poll(1, two) == PollRun(2, [CheckProgress(1), CheckProgress(2)], Complete(done.result));
    assert outcomes[1..] == two;
  }

  /** A reply with status "error" ends the loop at that check, carrying
      "Transcription failed: " and the service's message (or "Unknown error
      occurred" when it sent none): the service raises before the page's own
      "error" branch can be reached, so no progress is written. */
  lemma ErrorStatusReported(attempts: nat, reply: Http<StatusBody>, rest: seq<Result<TranscriptionResult>>)
    requires attempts <= MaxAttempts
    requires reply.Response? && reply.ok && reply.body.result.status == "error"
    ensures var message := if reply.body.error.Some? && reply.body.error.value != "" then reply.body.error.value else UnknownError;
      Poll(attempts, [GetTranscriptionResult(reply)] + rest) == PollRun(1, [], Fail(FailedPrefix + message))
  {
    var m := GetTranscriptionResult(reply).error;
    assert m == m[..|FailedPrefix|] + m[|FailedPrefix|..];
  }

  /** The values a loop started at attempt 0 writes before a failure's reset:
      its checks' values and 100 on completion, never decreasing and never
      below 60. */
  lemma CheckedProgress(outcomes: seq<Result<TranscriptionResult>>)
    ensures var run := Poll(0, outcomes);
      NonDecreasing(run.progress + Completion(run.verdict))
      && forall i :: 0 <= i < |run.progress + Completion(run.verdict)| ==> 60.0 <= (run.progress + Completion(run.verdict))[i]
  {
    var run := Poll(0, outcomes);
    PollProgress(0, outcomes);
    var tail := run.progress + Completion(run.verdict);
    forall i, j | 0 <= i < j < |tail| ensures tail[i] <= tail[j] {
      if j < |run.progress| {
        assert tail[i] == run.progress[i] && tail[j] == run.progress[j];
      } else if i < |run.progress| {
        assert tail[i] == run.progress[i];
      }
    }
    forall i | 0 <= i < |tail| ensures 60.0 <= tail[i] {
      if i < |run.progress| { assert tail[i] == run.progress[i]; }
    }
  }

  /** Two non-decreasing sequences separated by a bound `m` join into a
      non-decreasing one. */
  lemma JoinNonDecreasing(a: seq<real>, b: seq<real>, m: real)
    requires NonDecreasing(a) && NonDecreasing(b)
    requires forall i :: 0 <= i < |a| ==> a[i] <= m
    requires forall j :: 0 <= j < |b| ==> m <= b[j]
    ensures NonDecreasing(a + b)
  {
    forall i, j | 0 <= i < j < |a + b| ensures (a + b)[i] <= (a + b)[j] {
      if i >= |a| {
        assert (a + b)[i] == b[i - |a|] && (a + b)[j] == b[j - |a|];
      } else if j >= |a| {
        assert (a + b)[i] == a[i] && (a + b)[j] == b[j - |a|];
      }
    }
  }

  /** Values at most 60 written in order before a loop started at attempt 0
      keep the whole sequence of writes non-decreasing. */
  lemma SubmissionNonDecreasing(prefix: seq<real>, outcomes: seq<Result<TranscriptionResult>>)
    requires NonDecreasing(prefix)
    requires forall i :: 0 <= i < |prefix| ==> prefix[i] <= 60.0
    ensures var run := Poll(0, outcomes);
      NonDecreasing(prefix + run.progress + Completion(run.verdict))
  {
    var run := Poll(0, outcomes);
    CheckedProgress(outcomes);
    JoinNonDecreasing(prefix, run.progress + Completion(run.verdict), 60.0);
    AppendAssoc(prefix, run.progress, Completion(run.verdict));
  }

  /** The values `handleFileSelected` writes to `progress` until its loop ends
      (0, 20, 40, the checks' values, then 100 on completion) never decrease. */
  lemma FileProgressNonDecreasing(outcomes: seq<Result<TranscriptionResult>>)
    ensures var run := Poll(0, outcomes);
      NonDecreasing([0.0] + [20.0] + [40.0] + run.progress + Completion(run.verdict))
  {
    var prefix := [0.0] + [20.0] + [40.0];
    assert prefix == [0.0, 20.0, 40.0];
    SubmissionNonDecreasing(prefix, outcomes);
  }

  /** The same for `handleUrlSubmitted`, which starts at 20. */
  lemma UrlProgressNonDecreasing(outcomes: seq<Result<TranscriptionResult>>)
    ensures var run := Poll(0, outcomes);
      NonDecreasing([20.0] + [40.0] + run.progress + Completion(run.verdict))
  {
    var prefix := [20.0] + [40.0];
    assert prefix == [20.0, 40.0];
    SubmissionNonDecreasing(prefix, outcomes);
  }

  /** One check of the loop: either it reschedules and the rest of the run
      follows, or it ends the run. */
  lemma PollStep(attempts: nat, replies: seq<Result<TranscriptionResult>>)
    requires attempts <= MaxAttempts && replies != []
    ensures Decide(attempts, replies[0]).Reschedule? ==>
      attempts < MaxAttempts
      && Poll(attempts, replies) == Joined(1, Written(attempts, replies[0]), Poll(attempts + 1, replies[1..]))
    ensures !Decide(attempts, replies[0]).Reschedule? ==>
      Poll(attempts, replies) == PollRun(1, Written(attempts, replies[0]), Decide(attempts, replies[0]))
  {
  }

  /** A check that reschedules adds one check and its progress write in front
      of the rest of the loop, which decides how the loop ends. */
  lemma RescheduledRun(attempts: nat, replies: seq<Result<TranscriptionResult>>, log: seq<real>)
    requires attempts <= MaxAttempts && replies != [] && Decide(attempts, replies[0]).Reschedule?
    ensures attempts + 1 <= MaxAttempts
    ensures var run := Poll(attempts, replies);
      var rest := Poll(attempts + 1, replies[1..]);
      run.checks == rest.checks + 1 && run.verdict == rest.verdict
      && log + Written(attempts, replies[0]) + rest.progress + Ending(rest.verdict)
         == log + run.progress + Ending(run.verdict)
  {
    PollStep(attempts, replies);
    AppendAssoc(log, Written(attempts, replies[0]), Poll(attempts + 1, replies[1..]).progress);
  }

  lemma AppendAssoc<T>(a: seq<T>, b: seq<T>, c: seq<T>)
    ensures a + (b + c) == a + b + c
  {
  }

  lemma {:induction false} FetchesAppend(id: string, n: nat)
    ensures [Fetch(id)] + Fetches(id, n) == Fetches(id, n + 1)
  {
    if n > 0 {
      FetchesAppend(id, n - 1);
    }
  }

  /** The progress a check writes once a reply has been parsed. */
  function Written(attempts: nat, fetched: Result<TranscriptionResult>): seq<real> {
    if fetched.Ok? then [CheckProgress(attempts)] else []
  }

  /** The run made of `done` rescheduling checks that wrote `written`, then `rest`. */
  function Joined(done: nat, written: seq<real>, rest: PollRun): PollRun {
    PollRun(done + rest.checks, written + rest.progress, rest.verdict)
  }

  /** The value a loop's ending writes to `progress` after its checks: 100 on
      completion. */
  function Completion(verdict: Verdict): seq<real> {
    if verdict.Complete? then [100.0] else []
  }

  /** The value a loop's ending writes last: 100 on completion, the reset to 0
      of `handleError` on failure, nothing while still waiting. */
  function Ending(verdict: Verdict): seq<real> {
    match verdict
    case Complete(_) => [100.0]
    case Fail(_) => [0.0]
    case Reschedule => []
  }

  /** The page's state. */
  class Page {
    var apiKey: string
    var isProcessing: bool
    var progress: real
    var audioUrl: Option<string>
    var result: Option<TranscriptionResult>
    var toasts: seq<Toast>
    /** Every value written to `progress`, oldest first. */
    ghost var progressLog: seq<real>

    constructor ()
      ensures apiKey == "" && !isProcessing && progress == 0.0
      ensures audioUrl == None && result == None && toasts == [] && progressLog == []
      ensures ShowsLastWrite()
    {
      apiKey := "";
      isProcessing := false;
      progress := 0.0;
      audioUrl := None;
      result := None;
      toasts := [];
      progressLog := [];
    }

    /** The progress bar shows the last value written to it, or 0 before
        the first write. */
    ghost predicate ShowsLastWrite()
      reads this
    {
      if progressLog == [] then progress == 0.0 else progress == progressLog[|progressLog| - 1]
    }

    method SetApiKey(key: string)
      modifies this`apiKey
      ensures apiKey == key
    {
      apiKey := key;
    }

    method SetProgress(p: real)
      modifies this`progress, this`progressLog
      ensures progress == p && progressLog == old(progressLog) + [p]
    {
      progress := p;
      progressLog := progressLog + [p];
    }

    /** `handleError`: any failure stops processing, resets progress to 0 and
        shows the error's message (or the fixed default). */
    method HandleError(message: string)
      modifies this
      ensures Failed(message, old(result), old(toasts)) && progressLog == old(progressLog) + [0.0]
      ensures apiKey == old(apiKey) && audioUrl == old(audioUrl)
      ensures ShowsLastWrite()
    {
      isProcessing := false;
      SetProgress(0.0);
      toasts := toasts + [ErrorToast(message)];
    }

    /** The page after `handleError(message)`: not processing, progress reset
        to 0, the error shown, the result untouched. */
    ghost predicate Failed(message: string, oldResult: Option<TranscriptionResult>, oldToasts: seq<Toast>)
      reads this
    {
      result == oldResult && progress == 0.0 && !isProcessing && toasts == oldToasts + [ErrorToast(message)]
    }

    /** The page after a completed job: the result shown at progress 100. */
    ghost predicate Completed(r: TranscriptionResult, oldToasts: seq<Toast>)
      reads this
    {
      result == Some(r) && progress == 100.0 && !isProcessing && toasts == oldToasts + [CompleteToast]
    }

    /** The effect of a loop's end on the page. */
    ghost predicate Ended(verdict: Verdict, oldProcessing: bool, oldResult: Option<TranscriptionResult>, oldToasts: seq<Toast>)
      reads this
    {
      match verdict
      case Complete(r) => Completed(r, oldToasts)
      case Fail(message) => Failed(message, oldResult, oldToasts)
      case Reschedule => result == oldResult && isProcessing == oldProcessing && toasts == oldToasts
    }

    /** One run of `pollResult` with the counter at `attempts`: the fetch, the
        progress write when a reply was parsed, and the ending when the check
        does not reschedule. */
    method CheckOnce(attempts: nat, fetched: Result<TranscriptionResult>) returns (verdict: Verdict)
      modifies this
      ensures verdict == Decide(attempts, fetched)
      ensures progressLog == old(progressLog) + Written(attempts, fetched) + Ending(verdict)
      ensures Ended(verdict, old(isProcessing), old(result), old(toasts))
      ensures apiKey == old(apiKey) && audioUrl == old(audioUrl)
      ensures ShowsLastWrite()
    {
      verdict := Decide(attempts, fetched);
      match fetched {
        case Err(message) =>
          HandleError(message);
        case Ok(r) =>
          SetProgress(CheckProgress(attempts));
          if r.status == "completed" {
            result := Some(r);
            SetProgress(100.0);
            isProcessing := false;
            toasts := toasts + [CompleteToast];
          } else if r.status == "error" {
            HandleError(FailedText);
          } else if attempts < MaxAttempts {
          } else {
            HandleError(TimedOutText);
          }
      }
    }

    /** `pollResult` called with the counter at `attempts`, fed what
        `getTranscriptionResult` gave on this and the later checks: one fetch
        per check, the progress writes and the ending that `Poll` gives. A
        check that reschedules runs the next one, as the timer would. */
    method PollResult(id: string, attempts: nat, replies: seq<Result<TranscriptionResult>>) returns (calls: seq<RemoteCall>)
      requires attempts <= MaxAttempts
      requires ShowsLastWrite()
      modifies this
      ensures var run := Poll(attempts, replies);
        calls == Fetches(id, run.checks)
        && progressLog == old(progressLog) + run.progress + Ending(run.verdict)
        && Ended(run.verdict, old(isProcessing), old(result), old(toasts))
      ensures apiKey == old(apiKey) && audioUrl == old(audioUrl)
      ensures ShowsLastWrite()
      decreases |replies|
    {
      if replies == [] {
        calls := [];
        return;
      }
      ghost var log0 := progressLog;
      var verdict := CheckOnce(attempts, replies[0]);
      if !verdict.Reschedule? {
        PollStep(attempts, replies);
        calls := [Fetch(id)];
        return;
      }
      RescheduledRun(attempts, replies, log0);
      assert progressLog == log0 + Written(attempts, replies[0]);
      var later := PollResult(id, attempts + 1, replies[1..]);
      FetchesAppend(id, Poll(attempts + 1, replies[1..]).checks);
      calls := [Fetch(id)] + later;
    }

    /** `handleFileSelected`. Without an API key only the warning is shown and
        no request is sent; otherwise the file is uploaded, transcription is
        started and polled, and any failure goes through `handleError`. */
    method HandleFileSelected(file: MediaFile, objectUrl: string,
                              uploaded: Result<string>, started: Result<string>,
                              outcomes: seq<Result<TranscriptionResult>>) returns (calls: seq<RemoteCall>)
      requires ShowsLastWrite()
      modifies this
      ensures ShowsLastWrite()
      ensures apiKey == old(apiKey)
      ensures old(apiKey) == "" ==>
        calls == [] && toasts == old(toasts) + [ApiKeyToast]
        && isProcessing == old(isProcessing) && progress == old(progress) && progressLog == old(progressLog)
        && audioUrl == old(audioUrl) && result == old(result)
      ensures old(apiKey) != "" ==> audioUrl == Some(objectUrl)
      ensures old(apiKey) != "" && uploaded.Err? ==>
        calls == [Upload(file)]
        && progressLog == old(progressLog) + [0.0] + [20.0] + [0.0]
        && Failed(uploaded.error, old(result), old(toasts))
      ensures old(apiKey) != "" && uploaded.Ok? && started.Err? ==>
        calls == [Upload(file)] + [Start(StartRequest(uploaded.value))]
        && progressLog == old(progressLog) + [0.0] + [20.0] + [40.0] + [0.0]
        && Failed(started.error, old(result), old(toasts))
      ensures old(apiKey) != "" && uploaded.Ok? && started.Ok? ==>
        var run := Poll(0, outcomes);
        calls == [Upload(file)] + [Start(StartRequest(uploaded.value))]
                 + Fetches(started.value, run.checks)
        && progressLog == old(progressLog) + [0.0] + [20.0] + [40.0] + run.progress + Ending(run.verdict)
        && Ended(run.verdict, true, old(result), old(toasts))
    {
      if apiKey == "" {
        toasts := toasts + [ApiKeyToast];
        calls := [];
        return;
      }
      calls := ProcessFile(file, objectUrl, uploaded, started, outcomes);
    }

    /** The `try` block of `handleFileSelected`: processing starts at progress
        0, the local URL is shown, and the upload follows at progress 20. */
    method ProcessFile(file: MediaFile, objectUrl: string,
                       uploaded: Result<string>, started: Result<string>,
                       outcomes: seq<Result<TranscriptionResult>>) returns (calls: seq<RemoteCall>)
      modifies this
      ensures ShowsLastWrite()
      ensures apiKey == old(apiKey) && audioUrl == Some(objectUrl)
      ensures uploaded.Err? ==>
        calls == [Upload(file)]
        && progressLog == old(progressLog) + [0.0] + [20.0] + [0.0]
        && Failed(uploaded.error, old(result), old(toasts))
      ensures uploaded.Ok? && started.Err? ==>
        calls == [Upload(file)] + [Start(StartRequest(uploaded.value))]
        && progressLog == old(progressLog) + [0.0] + [20.0] + [40.0] + [0.0]
        && Failed(started.error, old(result), old(toasts))
      ensures uploaded.Ok? && started.Ok? ==>
        var run := Poll(0, outcomes);
        calls == [Upload(file)] + [Start(StartRequest(uploaded.value))]
                 + Fetches(started.value, run.checks)
        && progressLog == old(progressLog) + [0.0] + [20.0] + [40.0] + run.progress + Ending(run.verdict)
        && Ended(run.verdict, true, old(result), old(toasts))
    {
      ghost var log0 := progressLog;
      isProcessing := true;
      SetProgress(0.0);
      audioUrl := Some(objectUrl);
      SetProgress(20.0);
      ghost var log2 := progressLog;
      assert log2 == log0 + [0.0] + [20.0];
      var upload := Upload(file);
      if uploaded.Err? {
        HandleError(uploaded.error);
        calls := [upload];
        return;
      }
      var rest := StartUploaded(uploaded.value, started, outcomes);
      calls := [upload] + rest;
      if started.Ok? {
        AppendAssoc([upload], [Start(StartRequest(uploaded.value))],
                    Fetches(started.value, Poll(0, outcomes).checks));
      }
    }

    /** The part of `handleFileSelected` after a successful upload: progress
        40, the start of transcription, then polling. */
    method StartUploaded(uploadUrl: string, started: Result<string>,
                         outcomes: seq<Result<TranscriptionResult>>) returns (calls: seq<RemoteCall>)
      modifies this
      ensures ShowsLastWrite()
      ensures apiKey == old(apiKey) && audioUrl == old(audioUrl)
      ensures started.Err? ==>
        calls == [Start(StartRequest(uploadUrl))]
        && progressLog == old(progressLog) + [40.0] + [0.0]
        && Failed(started.error, old(result), old(toasts))
      ensures started.Ok? ==>
        var run := Poll(0, outcomes);
        calls == [Start(StartRequest(uploadUrl))] + Fetches(started.value, run.checks)
        && progressLog == old(progressLog) + [40.0] + run.progress + Ending(run.verdict)
        && Ended(run.verdict, old(isProcessing), old(result), old(toasts))
    {
      SetProgress(40.0);
      if started.Err? {
        HandleError(started.error);
        calls := [Start(StartRequest(uploadUrl))];
        return;
      }
      var fetches := PollResult(started.value, 0, outcomes);
      calls := [Start(StartRequest(uploadUrl))] + fetches;
    }

    /** `handleUrlSubmitted`: like a file, without the upload and without the
        initial reset of progress to 0. */
    method HandleUrlSubmitted(url: string, started: Result<string>,
                              outcomes: seq<Result<TranscriptionResult>>) returns (calls: seq<RemoteCall>)
      requires ShowsLastWrite()
      modifies this
      ensures ShowsLastWrite()
      ensures apiKey == old(apiKey)
      ensures old(apiKey) == "" ==>
        calls == [] && toasts == old(toasts) + [ApiKeyToast]
        && isProcessing == old(isProcessing) && progress == old(progress) && progressLog == old(progressLog)
        && audioUrl == old(audioUrl) && result == old(result)
      ensures old(apiKey) != "" ==> audioUrl == Some(url)
      ensures old(apiKey) != "" && started.Err? ==>
        calls == [Start(StartRequest(url))]
        && progressLog == old(progressLog) + [20.0] + [0.0]
        && Failed(started.error, old(result), old(toasts))
      ensures old(apiKey) != "" && started.Ok? ==>
        var run := Poll(0, outcomes);
        calls == [Start(StartRequest(url))] + Fetches(started.value, run.checks)
        && progressLog == old(progressLog) + [20.0] + [40.0] + run.progress + Ending(run.verdict)
        && Ended(run.verdict, true, old(result), old(toasts))
    {
      if apiKey == "" {
        toasts := toasts + [ApiKeyToast];
        calls := [];
        return;
      }
      isProcessing := true;
      SetProgress(20.0);
      audioUrl := Some(url);
      calls := [Start(StartRequest(url))];
      if started.Err? {
        HandleError(started.error);
        return;
      }
      SetProgress(40.0);
      var fetches := PollResult(started.value, 0, outcomes);
      calls := calls + fetches;
    }
  }
}
