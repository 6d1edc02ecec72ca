/**
 * The single global job of app.py: the `state` dict (app.py:45-52), the
 * guarded `start` transition (app.py:237-329), `stop` (app.py:333-339) and
 * the exits of `worker_send_to_thread` (app.py:113-157).
 *
 * The Flask request, the files saved in the upload folder and the remote
 * messaging client are abstracted: a request is the set of uploads it
 * carries, `json.loads` is the parameter `parseJson`, and each remote call of
 * the worker is given by its outcome. `StartStep`, `StopStep` and
 * `WorkerStep` specify the transitions; the class `App` performs them in
 * place on the fields of `state`.
 */
module Jobs {
  import opened Wrappers
  import opened Text
  import opened LogBuffer
  import opened Session

  /** An uploaded file: the name `secure_filename` gave it, and its text as read back. */
  datatype Upload = Upload(storedName: string, content: string)

  /** What `int(float(raw))` gave for the stripped text of the speed file. */
  datatype SpeedParse = Seconds(n: int) | ParseFailed(error: string)

  datatype SpeedUpload = SpeedUpload(file: Upload, parsed: SpeedParse)

  /**
   * The form posted to `/start`. A file field is `None` when it is missing or
   * has an empty file name; `threadUidText` is the raw `thread_uid` text field.
   */
  datatype StartRequest = StartRequest(
    cookiesFile: Option<Upload>,
    threadFile: Option<Upload>,
    messageFile: Option<Upload>,
    speedFile: Option<SpeedUpload>,
    threadUidText: string)

  /** The `state` dict without its log. */
  datatype Job = Job(
    running: bool,
    threadId: Option<string>,
    message: Option<string>,
    interval: int,
    lastError: Option<string>)

  /** The seconds used when no speed file says otherwise. */
  const DefaultInterval: int := 5

  const InitialJob: Job := Job(false, None, None, DefaultInterval, None)

  /** The arguments of the background worker thread that `start` spawns. */
  datatype WorkerArgs = WorkerArgs(sessionId: string, threadUid: string, message: string, interval: int)

  /** One transition: the new job fields, the lines it logs in order, and the worker it spawns. */
  datatype Step = Step(job: Job, lines: seq<Line>, launched: Option<WorkerArgs>)

  /** How a remote call of the worker ended: normally, or raising an exception with this `repr`. */
  datatype Outcome = Ok | Raised(repr: string)

  /**
   * What the world does to one worker run: whether `instagrapi` imported, and
   * how `Client()`, the login, both sends and the logout ended.
   */
  datatype WorkerEnv = WorkerEnv(
    clientImported: bool,
    construct: Outcome,
    login: Outcome,
    directSend: Outcome,
    messageSend: Outcome,
    logout: Outcome)

  // ---- The lines and errors app.py writes ----

  /** A line app.py logs; `Wording` gives its text. */
  datatype Line =
    | AlreadyRunning | NoCookiesFile | NoMessageFile | UploadedCookies(storedName: string)
    | MessageEmpty | NoThreadUid | SpeedParseFailed(error: string) | NoSessionId | SessionParsed
    | StopByUser | StopIdle
    | WorkerStarted | ImportFailed | LoggingIn | LoginFailed(error: string) | LoginOk
    | Sending(uid: string) | SentDirect(uid: string) | DirectFailed(error: string)
    | SentFallback(uid: string) | BothFailed(error: string) | LoggedOut | WorkerFinished

  /** The text `append_log` is given for each line. */
  function Wording(line: Line): string {
    match line
    case AlreadyRunning => "Start requested but a job is already running."
    case NoCookiesFile => "No cookies file uploaded. Aborting start."
    case NoMessageFile => "No message file uploaded. Aborting start."
    case UploadedCookies(name) => "Uploaded cookies file: " + name
    case MessageEmpty => "Message file is empty. Aborting."
    case NoThreadUid => "No thread UID provided. Aborting."
    case SpeedParseFailed(e) => "Failed to parse speed file, using default. Error: " + e
    case NoSessionId => "Could not extract sessionid from uploaded cookies file. Aborting."
    case SessionParsed => "Sessionid parsed successfully. Starting background worker..."
    case StopByUser => "Stop requested by user."
    case StopIdle => "Stop requested but no job is running."
    case WorkerStarted => "Worker started."
    case ImportFailed => "instagrapi is not installed or failed to import. Cannot proceed."
    case LoggingIn => "Logging in using sessionid..."
    case LoginFailed(e) => "Login failed: " + e
    case LoginOk => "Login successful."
    case Sending(uid) => "Sending message to thread uid: " + uid
    case SentDirect(uid) => "Message sent to thread " + uid + " using direct_send()."
    case DirectFailed(e) => "direct_send failed: " + e + " -- trying fallback message_send()"
    case SentFallback(uid) => "Message sent to thread " + uid + " using message_send()."
    case BothFailed(e) => "Both send attempts failed: " + e
    case LoggedOut => "Logged out client."
    case WorkerFinished => "Worker finished."
  }

  /** One entry of the log: the line and the timestamp `append_log` gave it. */
  datatype LogEntry = LogEntry(timestamp: string, line: Line)

  /** The text app.py stores for an entry, `"[<timestamp>] <line>"`. */
  function Formatted(e: LogEntry): string {
    "[" + e.timestamp + "] " + Wording(e.line)
  }

  /** The log entries for several lines written at time `now`. */
  function Logged(now: string, lines: seq<Line>): seq<LogEntry> {
    seq(|lines|, k requires 0 <= k < |lines| => LogEntry(now, lines[k]))
  }

  /** The `last_error` values the worker sets. */
  const ImportError: string := "instagrapi import failed"
  function LoginError(e: string): string { "login_failed: " + e }
  function SendError(e: string): string { "send_failed: " + e }

  // ---- Specification of the transitions ----

  /** The interval `start` picks, with the line it logs when the speed file does not parse. */
  function SpeedSetting(speedFile: Option<SpeedUpload>): (int, seq<Line>) {
    match speedFile
    case None => (DefaultInterval, [])
    case Some(sp) =>
      if Strip(sp.file.content) == [] then (DefaultInterval, [])
      else match sp.parsed
        case Seconds(n) => (n, [])
        case ParseFailed(e) => (DefaultInterval, [SpeedParseFailed(e)])
  }

  /**
   * `start` on the job fields `job`. The files a request uploads are saved
   * to one folder under their stored names; each is read back right after it
   * is saved, except the cookies file, which is read last (`CookiesTextRead`).
   */
  function StartStep(job: Job, req: StartRequest, parseJson: string -> Option<JsonObject>): Step {
    if job.running then Step(job, [AlreadyRunning], None)
    else if req.cookiesFile.None? then Step(job, [NoCookiesFile], None)
    else if req.messageFile.None? then Step(job, [NoMessageFile], None)
    else
      var said := [UploadedCookies(req.cookiesFile.value.storedName)];
      var messageText := Strip(req.messageFile.value.content);
      if messageText == [] then Step(job, said + [MessageEmpty], None)
      else
        var threadUid := RequestedThreadUid(req);
        if threadUid == [] then Step(job, said + [NoThreadUid], None)
        else
          var (seconds, speedSaid) := SpeedSetting(req.speedFile);
          var sessionId := ExtractSessionId(CookiesTextRead(req), parseJson);
          if sessionId.None? || sessionId.value == [] then
            Step(job, said + speedSaid + [NoSessionId], None)
          else
            Step(Job(true, Some(threadUid), Some(messageText), seconds, None),
                 said + speedSaid + [SessionParsed],
                 Some(WorkerArgs(sessionId.value, threadUid, messageText, seconds)))
  }

  /** `stop` on the job fields `job`. */
  function StopStep(job: Job): Step {
    if job.running then Step(job.(running := false), [StopByUser], None)
    else Step(job, [StopIdle], None)
  }

  /** The lines and error the single send attempt produces (app.py:133-149). */
  function SendAttempt(args: WorkerArgs, env: WorkerEnv, lastError: Option<string>): (seq<Line>, Option<string>) {
    var uid := args.threadUid;
    var opening := [Sending(uid)];
    match env.directSend
    case Ok => (opening + [SentDirect(uid)], lastError)
    case Raised(e) =>
      var fallback := opening + [DirectFailed(e)];
      match env.messageSend
      case Ok => (fallback + [SentFallback(uid)], lastError)
      case Raised(e2) => (fallback + [BothFailed(e2)], Some(SendError(e2)))
  }

  /**
   * One run of `worker_send_to_thread`, from its first line to its exit, on
   * the job fields `job`. `Client()` is called outside every `try`: when it
   * raises, the thread dies after its first line and leaves `state` as it was.
   */
  function WorkerStep(job: Job, args: WorkerArgs, env: WorkerEnv): Step {
    var started := [WorkerStarted];
    if !env.clientImported then
      Step(job.(running := false, lastError := Some(ImportError)),
           started + [ImportFailed], None)
    else if env.construct.Raised? then Step(job, started, None)
    else
      var loggingIn := started + [LoggingIn];
      match env.login
      case Raised(e) =>
        Step(job.(running := false, lastError := Some(LoginError(e))), loggingIn + [LoginFailed(e)], None)
      case Ok =>
        var (sent, err) := SendAttempt(args, env, job.lastError);
        var loggedOut := if env.logout.Ok? then [LoggedOut] else [];
        Step(job.(running := false, lastError := err),
             loggingIn + [LoginOk] + sent + loggedOut + [WorkerFinished], None)
  }

  // ---- Independent statements of what start accepts ----

  /** The thread UID a request names: the thread file, when one is uploaded, overrides the text field. */
  function RequestedThreadUid(req: StartRequest): string {
    if req.threadFile.Some? then Strip(req.threadFile.value.content) else Strip(req.threadUidText)
  }

  /** The uploads a request saves before the cookies file is read, in the order they are saved. */
  function SavedUploads(req: StartRequest): seq<Upload>
    requires req.cookiesFile.Some? && req.messageFile.Some?
  {
    [req.cookiesFile.value, req.messageFile.value]
    + (if req.threadFile.Some? then [req.threadFile.value] else [])
    + (if req.speedFile.Some? then [req.speedFile.value.file] else [])
  }

  /** The content of the last of `saved` stored under `name`, if any. */
  function LastSavedUnder(name: string, saved: seq<Upload>): Option<string> {
    if saved == [] then None
    else if saved[|saved| - 1].storedName == name then Some(saved[|saved| - 1].content)
    else LastSavedUnder(name, saved[..|saved| - 1])
  }

  /**
   * The text the session extractor reads at the cookies path: the content of
   * the last upload saved under the cookies file's stored name, which is the
   * cookies file itself unless a later upload of the request has the same
   * stored name.
   */
  function CookiesTextRead(req: StartRequest): string
    requires req.cookiesFile.Some? && req.messageFile.Some?
  {
    var seen := LastSavedUnder(req.cookiesFile.value.storedName, SavedUploads(req));
    if seen.Some? then seen.value else req.cookiesFile.value.content
  }

  /** Every check of `start` passes, in the order app.py makes them. */
  predicate Accepted(job: Job, req: StartRequest, parseJson: string -> Option<JsonObject>) {
    && !job.running
    && req.cookiesFile.Some?
    && req.messageFile.Some?
    && Strip(req.messageFile.value.content) != []
    && RequestedThreadUid(req) != []
    && var sessionId := ExtractSessionId(CookiesTextRead(req), parseJson);
       sessionId.Some? && sessionId.value != []
  }

  // ---- Properties of the transitions ----

  /** The upload folder once every file of a request is saved, one after the other. */
  function Folder(req: StartRequest): map<string, string>
    requires req.cookiesFile.Some? && req.messageFile.Some?
  {
    var f := SavedBeforeSpeed(req);
    if req.speedFile.Some? then f[req.speedFile.value.file.storedName := req.speedFile.value.file.content] else f
  }

  /** The upload folder before the speed file is saved. */
  function SavedBeforeSpeed(req: StartRequest): map<string, string>
    requires req.cookiesFile.Some? && req.messageFile.Some?
  {
    var c := req.cookiesFile.value;
    var m := req.messageFile.value;
    var f := map[c.storedName := c.content][m.storedName := m.content];
    if req.threadFile.Some? then f[req.threadFile.value.storedName := req.threadFile.value.content] else f
  }

  /** Reading the cookies path from that folder gives the last upload saved under the cookies file's name. */
  lemma CookiesReadBack(req: StartRequest)
    requires req.cookiesFile.Some? && req.messageFile.Some?
    ensures LastSavedUnder(req.cookiesFile.value.storedName, SavedUploads(req)).Some?
    ensures Folder(req)[req.cookiesFile.value.storedName] == CookiesTextRead(req)
  {
    var c := req.cookiesFile.value;
    var m := req.messageFile.value;
    var saved := SavedUploads(req);
    var base := [c, m];
    var withThread := base + (if req.threadFile.Some? then [req.threadFile.value] else []);
    assert saved == withThread + (if req.speedFile.Some? then [req.speedFile.value.file] else []);
    assert base[..1] == [c];
    assert LastSavedUnder(c.storedName, [c]) == Some(c.content);
    assert LastSavedUnder(c.storedName, base) == Some(if m.storedName == c.storedName then m.content else c.content);
    if req.threadFile.Some? {
      assert withThread[..2] == base;
    } else {
      assert withThread == base;
    }
    if req.speedFile.Some? {
      assert saved[..|saved| - 1] == withThread;
    } else {
      assert saved == withThread;
    }
  }

  /** `start` while a job runs changes no job field, spawns nothing, and only logs. */
  lemma StartWhileRunning(job: Job, req: StartRequest, parseJson: string -> Option<JsonObject>)
    requires job.running
    ensures StartStep(job, req, parseJson) == Step(job, [AlreadyRunning], None)
  {
  }

  /** `start` spawns the worker exactly when every check passes. */
  lemma StartLaunchesIff(job: Job, req: StartRequest, parseJson: string -> Option<JsonObject>)
    ensures StartStep(job, req, parseJson).launched.Some? <==> Accepted(job, req, parseJson)
  {
    if job.running || req.cookiesFile.None? || req.messageFile.None? {
    } else if Strip(req.messageFile.value.content) == [] || RequestedThreadUid(req) == [] {
    } else {
      var sessionId := ExtractSessionId(CookiesTextRead(req), parseJson);
      if sessionId.None? || sessionId.value == [] {
      } else {
      }
    }
  }

  /**
   * The interval is 5 unless a speed file with non-blank text parses, and a
   * line is logged exactly when a non-blank speed file fails to parse.
   */
  lemma SpeedSettingInterval(speedFile: Option<SpeedUpload>)
    ensures var given := speedFile.Some? && Strip(speedFile.value.file.content) != [];
      && SpeedSetting(speedFile).0 == (if given && speedFile.value.parsed.Seconds? then speedFile.value.parsed.n else DefaultInterval)
      && (SpeedSetting(speedFile).1 != [] <==> given && speedFile.value.parsed.ParseFailed?)
  {
  }

  /** A rejected `start` leaves every job field as it was. */
  lemma StartRejectKeepsJob(job: Job, req: StartRequest, parseJson: string -> Option<JsonObject>)
    requires !Accepted(job, req, parseJson)
    ensures StartStep(job, req, parseJson).job == job
    ensures StartStep(job, req, parseJson).launched.None?
  {
    if job.running || req.cookiesFile.None? || req.messageFile.None? {
    } else if Strip(req.messageFile.value.content) == [] || RequestedThreadUid(req) == [] {
    } else {
      var sessionId := ExtractSessionId(CookiesTextRead(req), parseJson);
      if sessionId.None? || sessionId.value == [] {
      } else {
      }
    }
  }

  /**
   * An accepted `start` sets `running`, the thread id, the message and the
   * interval from the request, clears `last_error`, and hands the same values
   * and the extracted session id to the worker.
   */
  lemma StartAcceptSetsJob(job: Job, req: StartRequest, parseJson: string -> Option<JsonObject>)
    requires Accepted(job, req, parseJson)
    ensures
      var s := StartStep(job, req, parseJson);
      var uid := RequestedThreadUid(req);
      var text := Strip(req.messageFile.value.content);
      var seconds := SpeedSetting(req.speedFile).0;
      && s.job == Job(true, Some(uid), Some(text), seconds, None)
      && s.launched == Some(WorkerArgs(ExtractSessionId(CookiesTextRead(req), parseJson).value, uid, text, seconds))
  {
  }

  /** What `start` does once every check before the session id has passed, given the id extracted. */
  lemma StartTail(job: Job, req: StartRequest, parseJson: string -> Option<JsonObject>, sessionId: Option<string>)
    requires !job.running && req.cookiesFile.Some? && req.messageFile.Some?
    requires Strip(req.messageFile.value.content) != [] && RequestedThreadUid(req) != []
    requires sessionId == ExtractSessionId(CookiesTextRead(req), parseJson)
    ensures
      var said := [UploadedCookies(req.cookiesFile.value.storedName)] + SpeedSetting(req.speedFile).1;
      StartStep(job, req, parseJson)
      == if sessionId.None? || sessionId.value == [] then Step(job, said + [NoSessionId], None)
         else Step(Job(true, Some(RequestedThreadUid(req)), Some(Strip(req.messageFile.value.content)),
                       SpeedSetting(req.speedFile).0, None),
                   said + [SessionParsed],
                   Some(WorkerArgs(sessionId.value, RequestedThreadUid(req), Strip(req.messageFile.value.content),
                                   SpeedSetting(req.speedFile).0)))
  {
  }

  /** `stop` always leaves `running` false and changes no other field. */
  lemma StopClearsRunning(job: Job)
    ensures StopStep(job).job == job.(running := false)
    ensures StopStep(job).launched.None? && |StopStep(job).lines| == 1
  {
  }

  /**
   * Every exit of the worker except a raising `Client()` leaves `running`
   * false and keeps the thread id, message and interval; its last line says
   * why it stopped, and `last_error` says what failed (a successful run keeps
   * the old value). When `Client()` raises, only `Worker started.` is logged
   * and the job is left as it was, still running if it was.
   */
  lemma WorkerExits(job: Job, args: WorkerArgs, env: WorkerEnv)
    ensures var s := WorkerStep(job, args, env);
      && s.launched.None?
      && s.lines[0] == WorkerStarted
      && (env.clientImported && env.construct.Raised? ==> s.job == job && s.lines == [WorkerStarted])
      && (!env.clientImported || env.construct.Ok? ==>
          && s.job == job.(running := false, lastError := s.job.lastError)
          && s.lines[|s.lines| - 1] ==
               (if !env.clientImported then ImportFailed
                else if env.login.Raised? then LoginFailed(env.login.repr)
                else WorkerFinished)
          && s.job.lastError ==
               (if !env.clientImported then Some(ImportError)
                else if env.login.Raised? then Some(LoginError(env.login.repr))
                else if env.directSend.Raised? && env.messageSend.Raised? then Some(SendError(env.messageSend.repr))
                else job.lastError))
  {
  }

  /**
   * The worker logs the message as sent (by `direct_send` or by the fallback
   * `message_send`) exactly when the client imported and was created, the
   * login succeeded and one of the two sends did not raise.
   */
  lemma WorkerReportsSentIff(job: Job, args: WorkerArgs, env: WorkerEnv)
    ensures (SentDirect(args.threadUid) in WorkerStep(job, args, env).lines
             || SentFallback(args.threadUid) in WorkerStep(job, args, env).lines)
        <==> env.clientImported && env.construct.Ok? && env.login.Ok? && (env.directSend.Ok? || env.messageSend.Ok?)
  {
  }

  /**
   * The worker never reads `running`: a `stop` before it ends changes nothing
   * it logs, nor, unless `Client()` raised, the job it leaves behind. When
   * `Client()` raised, the job is as the `stop` left it.
   */
  lemma WorkerIgnoresStop(job: Job, args: WorkerArgs, env: WorkerEnv)
    ensures WorkerStep(StopStep(job).job, args, env).lines == WorkerStep(job, args, env).lines
    ensures env.clientImported && env.construct.Raised? ==>
      WorkerStep(StopStep(job).job, args, env).job == StopStep(job).job
    ensures !env.clientImported || env.construct.Ok? ==>
      WorkerStep(StopStep(job).job, args, env).job == WorkerStep(job, args, env).job
  {
  }

  /**
   * `stop` does not stop the worker, and the worker clears `running` when it
   * ends whichever job is current then: after start, stop and a second
   * start, the end of the first worker marks the second job as not running
   * while its worker has yet to run, and a third start is accepted. Only a
   * first worker whose `Client()` raised leaves the second job running, and
   * then a third start is refused.
   */
  lemma StopThenRestartOverlap(
    job: Job, first: StartRequest, second: StartRequest, parseJson: string -> Option<JsonObject>, env: WorkerEnv)
    requires Accepted(job, first, parseJson)
    requires
      var j2 := StopStep(StartStep(job, first, parseJson).job).job;
      Accepted(j2, second, parseJson)
    ensures
      var s1 := StartStep(job, first, parseJson);
      var s3 := StartStep(StopStep(s1.job).job, second, parseJson);
      var j4 := WorkerStep(s3.job, s1.launched.value, env).job;
      && s1.launched.Some? && s3.launched.Some?
      && j4.threadId == Some(s3.launched.value.threadUid)
      && (env.clientImported && env.construct.Raised? ==>
            j4.running && StartStep(j4, second, parseJson).launched.None?)
      && (!env.clientImported || env.construct.Ok? ==>
            !j4.running && StartStep(j4, second, parseJson).launched.Some?)
  {
    StartLaunchesIff(job, first, parseJson);
    StartAcceptSetsJob(job, first, parseJson);
    var s1 := StartStep(job, first, parseJson);
    var j2 := StopStep(s1.job).job;
    StartLaunchesIff(j2, second, parseJson);
    StartAcceptSetsJob(j2, second, parseJson);
    var s3 := StartStep(j2, second, parseJson);
    var j4 := WorkerStep(s3.job, s1.launched.value, env).job;
    WorkerExits(s3.job, s1.launched.value, env);
    StartLaunchesIff(j4, second, parseJson);
    if !env.clientImported || env.construct.Ok? {
      assert Accepted(j4, second, parseJson);
    }
  }

  // ---- The state, updated in place ----

  /** Writing one more line of a step keeps the log equal to the newest entries of the step so far. */
  lemma AppendOneMore(start: seq<LogEntry>, now: string, said: seq<Line>, line: Line)
    ensures Bounded(start + Logged(now, said + [line]))
         == Appended(Bounded(start + Logged(now, said)), LogEntry(now, line))
  {
    BoundedAbsorbs(start + Logged(now, said), LogEntry(now, line));
    assert Logged(now, said + [line]) == Logged(now, said) + [LogEntry(now, line)];
    assert start + Logged(now, said + [line]) == start + Logged(now, said) + [LogEntry(now, line)];
  }

  /** The `state` dict and its log. */
  class App {
    var running: bool
    var threadId: Option<string>
    var message: Option<string>
    var interval: int
    var log: seq<LogEntry>
    var lastError: Option<string>

    /** The log never holds more than `LOG_MAX_LINES` entries. */
    ghost predicate Valid()
      reads this
    {
      |log| <= MaxLines
    }

    /** The job fields of `state`. */
    function State(): Job
      reads this
    {
      Job(running, threadId, message, interval, lastError)
    }

    /** The state at import time. */
    constructor ()
      ensures Valid() && State() == InitialJob && log == []
    {
      running, threadId, message, interval, log, lastError := false, None, None, DefaultInterval, [], None;
    }

    /** `append_log(line)` at time `now`. */
    method AppendLog(now: string, line: Line)
      requires Valid()
      modifies this
      ensures Valid() && State() == old(State())
      ensures log == Appended(old(log), LogEntry(now, line))
    {
      log := log + [LogEntry(now, line)];
      if |log| > MaxLines {
        log := log[|log| - MaxLines..];
      }
    }

    /** `append_log` of the next line of a step whose earlier lines `said` were logged on top of `start`. */
    method Say(now: string, line: Line, ghost start: seq<LogEntry>, ghost said: seq<Line>)
      requires Valid() && log == Bounded(start + Logged(now, said))
      modifies this
      ensures Valid() && State() == old(State())
      ensures log == Bounded(start + Logged(now, said + [line]))
    {
      AppendLog(now, line);
      AppendOneMore(start, now, said, line);
    }

    /** The `/start` handler; `launched` stands for the worker thread it spawns. */
    method Start(now: string, req: StartRequest, parseJson: string -> Option<JsonObject>)
      returns (launched: Option<WorkerArgs>)
      requires Valid()
      modifies this
      ensures Valid()
      ensures State() == StartStep(old(State()), req, parseJson).job
      ensures log == Bounded(old(log) + Logged(now, StartStep(old(State()), req, parseJson).lines))
      ensures launched == StartStep(old(State()), req, parseJson).launched
    {
      ghost var start := log;
      if running {
        Say(now, AlreadyRunning, start, []);
        return None;
      }
      launched := StartIdle(now, req, parseJson, start);
    }

    /** `/start` when no job is running: the cookies file must be present. */
    method StartIdle(now: string, req: StartRequest, parseJson: string -> Option<JsonObject>, ghost start: seq<LogEntry>)
      returns (launched: Option<WorkerArgs>)
      requires !running && Valid() && log == start
      modifies this
      ensures Valid()
      ensures State() == StartStep(old(State()), req, parseJson).job
      ensures log == Bounded(start + Logged(now, StartStep(old(State()), req, parseJson).lines))
      ensures launched == StartStep(old(State()), req, parseJson).launched
    {
      if req.cookiesFile.None? {
        Say(now, NoCookiesFile, start, []);
        return None;
      }
      launched := StartWithCookies(now, req, parseJson, start);
    }

    /** `/start` once the cookies file is present: the message file must be too. */
    method StartWithCookies(now: string, req: StartRequest, parseJson: string -> Option<JsonObject>, ghost start: seq<LogEntry>)
      returns (launched: Option<WorkerArgs>)
      requires !running && Valid() && log == start && req.cookiesFile.Some?
      modifies this
      ensures Valid()
      ensures State() == StartStep(old(State()), req, parseJson).job
      ensures log == Bounded(start + Logged(now, StartStep(old(State()), req, parseJson).lines))
      ensures launched == StartStep(old(State()), req, parseJson).launched
    {
      if req.messageFile.None? {
        Say(now, NoMessageFile, start, []);
        return None;
      }
      launched := StartWithFiles(now, req, parseJson, start);
    }

    /** `/start` once both required uploads are present: they are saved and the message is read. */
    method StartWithFiles(now: string, req: StartRequest, parseJson: string -> Option<JsonObject>, ghost start: seq<LogEntry>)
      returns (launched: Option<WorkerArgs>)
      requires !running && Valid() && log == start
      requires req.cookiesFile.Some? && req.messageFile.Some?
      modifies this
      ensures Valid()
      ensures State() == StartStep(old(State()), req, parseJson).job
      ensures log == Bounded(start + Logged(now, StartStep(old(State()), req, parseJson).lines))
      ensures launched == StartStep(old(State()), req, parseJson).launched
    {
      var cookies := req.cookiesFile.value;
      var msg := req.messageFile.value;
      var folder := map[cookies.storedName := cookies.content];
      Say(now, UploadedCookies(cookies.storedName), start, []);
      ghost var said := [UploadedCookies(cookies.storedName)];
      assert log == Bounded(start + Logged(now, said));

      folder := folder[msg.storedName := msg.content];
      var messageText := Strip(folder[msg.storedName]);
      if messageText == [] {
        assert StartStep(old(State()), req, parseJson) == Step(old(State()), said + [MessageEmpty], None);
        Say(now, MessageEmpty, start, said);
        return None;
      }

      launched := StartWithMessage(now, req, parseJson, folder, messageText, start);
    }

    /** `/start` after the message file is read and found non-blank: the thread UID, the speed, the session id. */
    method StartWithMessage(now: string, req: StartRequest, parseJson: string -> Option<JsonObject>,
                            folder0: map<string, string>, messageText: string, ghost start: seq<LogEntry>)
      returns (launched: Option<WorkerArgs>)
      requires !running && req.cookiesFile.Some? && req.messageFile.Some?
      requires folder0 == map[req.cookiesFile.value.storedName := req.cookiesFile.value.content]
                            [req.messageFile.value.storedName := req.messageFile.value.content]
      requires messageText == Strip(req.messageFile.value.content) && messageText != []
      requires Valid() && log == Bounded(start + Logged(now, [UploadedCookies(req.cookiesFile.value.storedName)]))
      modifies this
      ensures Valid()
      ensures State() == StartStep(old(State()), req, parseJson).job
      ensures log == Bounded(start + Logged(now, StartStep(old(State()), req, parseJson).lines))
      ensures launched == StartStep(old(State()), req, parseJson).launched
    {
      ghost var said := [UploadedCookies(req.cookiesFile.value.storedName)];
      var threadUid, folder := ReadThreadUid(req, folder0);
      if threadUid == [] {
        assert StartStep(old(State()), req, parseJson) == Step(old(State()), said + [NoThreadUid], None);
        Say(now, NoThreadUid, start, said);
        return None;
      }
      launched := StartWithThread(now, req, parseJson, folder, messageText, threadUid, start);
    }

    /** The thread UID of `/start`: the text field, unless a thread file is uploaded, saved and read back. */
    static method ReadThreadUid(req: StartRequest, folder0: map<string, string>)
      returns (threadUid: string, folder: map<string, string>)
      requires req.cookiesFile.Some? && req.messageFile.Some?
      requires folder0 == map[req.cookiesFile.value.storedName := req.cookiesFile.value.content]
                            [req.messageFile.value.storedName := req.messageFile.value.content]
      ensures threadUid == RequestedThreadUid(req) && IsStripped(threadUid)
      ensures folder == SavedBeforeSpeed(req)
    {
      folder := folder0;
      threadUid := Strip(req.threadUidText);
      if req.threadFile.Some? {
        folder := folder[req.threadFile.value.storedName := req.threadFile.value.content];
        threadUid := Strip(folder[req.threadFile.value.storedName]);
      }
      StripSlice(if req.threadFile.Some? then req.threadFile.value.content else req.threadUidText);
    }

    /** `/start` once the thread UID is known to be non-blank: the speed, the session id, the launch. */
    method StartWithThread(now: string, req: StartRequest, parseJson: string -> Option<JsonObject>,
                           folder0: map<string, string>, messageText: string, threadUid: string,
                           ghost start: seq<LogEntry>)
      returns (launched: Option<WorkerArgs>)
      requires !running && req.cookiesFile.Some? && req.messageFile.Some?
      requires folder0 == SavedBeforeSpeed(req)
      requires messageText == Strip(req.messageFile.value.content) && messageText != []
      requires threadUid == RequestedThreadUid(req) && threadUid != []
      requires Valid() && log == Bounded(start + Logged(now, [UploadedCookies(req.cookiesFile.value.storedName)]))
      modifies this
      ensures Valid()
      ensures State() == StartStep(old(State()), req, parseJson).job
      ensures log == Bounded(start + Logged(now, StartStep(old(State()), req, parseJson).lines))
      ensures launched == StartStep(old(State()), req, parseJson).launched
    {
      var cookies := req.cookiesFile.value;
      var folder := folder0;
      ghost var said := [UploadedCookies(cookies.storedName)];
      var seconds := DefaultInterval;
      if req.speedFile.Some? {
        var sp := req.speedFile.value;
        folder := folder[sp.file.storedName := sp.file.content];
        seconds := ReadSpeed(now, sp, folder[sp.file.storedName], start, said);
        said := said + SpeedSetting(req.speedFile).1;
      }
      assert folder == Folder(req);
      CookiesReadBack(req);
      var sessionId := ExtractSessionId(folder[cookies.storedName], parseJson);
      StartTail(old(State()), req, parseJson, sessionId);
      assert said == [UploadedCookies(cookies.storedName)] + SpeedSetting(req.speedFile).1;
      launched := Launch(now, sessionId, messageText, threadUid, seconds, start, said);
      if sessionId.None? || sessionId.value == [] {
        assert StartStep(old(State()), req, parseJson).lines == said + [NoSessionId];
      } else {
        assert StartStep(old(State()), req, parseJson).lines == said + [SessionParsed];
      }
    }

    /** The end of `/start` once the uploads are saved: with a session id, start the worker. */
    method Launch(now: string, sessionId: Option<string>, messageText: string, threadUid: string, seconds: int,
                  ghost start: seq<LogEntry>, ghost said: seq<Line>)
      returns (launched: Option<WorkerArgs>)
      requires Valid() && log == Bounded(start + Logged(now, said))
      modifies this
      ensures Valid()
      ensures if sessionId.None? || sessionId.value == [] then
                && State() == old(State()) && launched.None?
                && log == Bounded(start + Logged(now, said + [NoSessionId]))
              else
                && State() == Job(true, Some(threadUid), Some(messageText), seconds, None)
                && launched == Some(WorkerArgs(sessionId.value, threadUid, messageText, seconds))
                && log == Bounded(start + Logged(now, said + [SessionParsed]))
    {
      if sessionId.None? || sessionId.value == [] {
        Say(now, NoSessionId, start, said);
        return None;
      }
      Say(now, SessionParsed, start, said);
      running := true;
      threadId := Some(threadUid);
      message := Some(messageText);
      interval := seconds;
      lastError := None;
      launched := Some(WorkerArgs(sessionId.value, threadUid, messageText, seconds));
    }

    /** The interval from a saved speed file whose text reads back as `text`, logging a parse failure. */
    method ReadSpeed(now: string, sp: SpeedUpload, text: string, ghost start: seq<LogEntry>, ghost said: seq<Line>)
      returns (seconds: int)
      requires text == sp.file.content
      requires Valid() && log == Bounded(start + Logged(now, said))
      modifies this
      ensures Valid() && State() == old(State())
      ensures seconds == SpeedSetting(Some(sp)).0
      ensures log == Bounded(start + Logged(now, said + SpeedSetting(Some(sp)).1))
    {
      seconds := DefaultInterval;
      var raw := Strip(text);
      if raw != [] {
        match sp.parsed
        case Seconds(n) =>
          seconds := n;
          assert said + [] == said;
        case ParseFailed(e) =>
          Say(now, SpeedParseFailed(e), start, said);
      }
      if raw == [] {
        assert said + [] == said;
      }
    }

    /** The `/stop` handler. */
    method Stop(now: string)
      requires Valid()
      modifies this
      ensures Valid()
      ensures State() == StopStep(old(State())).job
      ensures log == Bounded(old(log) + Logged(now, StopStep(old(State())).lines))
    {
      ghost var start := log;
      if running {
        running := false;
        Say(now, StopByUser, start, []);
      } else {
        Say(now, StopIdle, start, []);
      }
    }

    /** One run of the worker thread spawned with `args`, performed as one step. */
    method Worker(now: string, args: WorkerArgs, env: WorkerEnv)
      requires Valid()
      modifies this
      ensures Valid()
      ensures State() == WorkerStep(old(State()), args, env).job
      ensures log == Bounded(old(log) + Logged(now, WorkerStep(old(State()), args, env).lines))
    {
      ghost var start := log;
      Say(now, WorkerStarted, start, []);
      ghost var said := [WorkerStarted];
      ghost var step := WorkerStep(old(State()), args, env);
      if !env.clientImported {
        assert said + [ImportFailed] == step.lines;
        Say(now, ImportFailed, start, said);
        lastError := Some(ImportError);
        running := false;
        return;
      }
      if env.construct.Raised? {
        assert said == step.lines;
        return;
      }
      Say(now, LoggingIn, start, said);
      said := said + [LoggingIn];
      if env.login.Raised? {
        assert said + [LoginFailed(env.login.repr)] == step.lines;
        Say(now, LoginFailed(env.login.repr), start, said);
        lastError := Some(LoginError(env.login.repr));
        running := false;
        return;
      }
      Say(now, LoginOk, start, said);
      said := said + [LoginOk];
      SendAndFinish(now, args, env, start, said);
      assert said + SendAttempt(args, env, old(lastError)).0 + (if env.logout.Ok? then [LoggedOut] else []) + [WorkerFinished]
          == WorkerStep(old(State()), args, env).lines;
    }

    /**
     * The rest of a worker run after a successful login (app.py:133-157):
     * one send attempt with its fallback, the logout, and the exit.
     */
    method SendAndFinish(now: string, args: WorkerArgs, env: WorkerEnv, ghost start: seq<LogEntry>, ghost said0: seq<Line>)
      requires Valid() && log == Bounded(start + Logged(now, said0))
      modifies this
      ensures Valid()
      ensures State() == old(State()).(running := false, lastError := SendAttempt(args, env, old(lastError)).1)
      ensures log == Bounded(start + Logged(now, said0 + SendAttempt(args, env, old(lastError)).0
                                           + (if env.logout.Ok? then [LoggedOut] else []) + [WorkerFinished]))
    {
      ghost var said := said0;
      var uid := args.threadUid;
      Say(now, Sending(uid), start, said);
      said := said + [Sending(uid)];
      if env.directSend.Ok? {
        Say(now, SentDirect(uid), start, said);
        said := said + [SentDirect(uid)];
      } else {
        var e := env.directSend.repr;
        Say(now, DirectFailed(e), start, said);
        said := said + [DirectFailed(e)];
        if env.messageSend.Ok? {
          Say(now, SentFallback(uid), start, said);
          said := said + [SentFallback(uid)];
        } else {
          var e2 := env.messageSend.repr;
          Say(now, BothFailed(e2), start, said);
          said := said + [BothFailed(e2)];
          lastError := Some(SendError(e2));
        }
      }
      assert said == said0 + SendAttempt(args, env, old(lastError)).0;
      if env.logout.Ok? {
        Say(now, LoggedOut, start, said);
        said := said + [LoggedOut];
      }
      running := false;
      ghost var lines := said0 + SendAttempt(args, env, old(lastError)).0
                         + (if env.logout.Ok? then [LoggedOut] else []) + [WorkerFinished];
      assert said + [WorkerFinished] == lines;
      Say(now, WorkerFinished, start, said);
    }
  }
}
