# A verified model of the job core of `app.py`

`app.py` is a small Flask application. A user uploads a cookies file, a
message file, an optional speed file and a thread UID. A background worker
logs in to Instagram with the session id found in the cookies file and sends
the message once to the thread. Progress goes to a bounded in-memory log,
which a live console reads through a server-sent event stream.

This project models the parts of `app.py` that are plain logic, as they are
written:

- `allowed_file`, the upload-name filter (module `Uploads`);
- `append_log`, the log capped at `LOG_MAX_LINES` = 800 entries (module
  `LogBuffer` for the specification, class `Jobs.App` for the list updated in
  place);
- `extract_sessionid_from_file` after the file is read: a JSON lookup, a
  cookie-line scan and a raw-token fallback (module `Session`), on top of the
  Python string operations it uses (module `Text`);
- the global `state` dict and its transitions `start`, `stop` and the exits
  of `worker_send_to_thread` (module `Jobs`). The functions `StartStep`,
  `StopStep` and `WorkerStep` specify each transition; the class `App`
  performs them on its fields, and its methods are proved to match;
- the `last_index` cursor of the `/stream` generator (module `Stream`), with
  the generator's loop as the method `EventStream`.

`app.py` has one global job. There are no task ids, no stop-by-id and no
stop-all. `start` refuses while `running` is set, the worker sends once, and
`stop` only clears `running`, which the worker never reads. The log cap is
800 entries.

The Instagram client, the file system and the clock are inputs. A request is
the set of uploads it carries, each with the name `secure_filename` gave it
and the text read back from it. `json.loads` is the parameter `parseJson`.
Each remote call of the worker is given by its `Outcome`, and every line of
one step carries the same timestamp `now`. Log entries are records of a
timestamp and a line; `Jobs.Formatted` gives the text `append_log` stores.

## Model

| member | source | states |
|---|---|---|
| Text.TrimLeft | app.py:82 | `lstrip()`: drops the leading characters Python's `isspace` accepts |
| Text.TrimRight | app.py:82 | `rstrip()`: drops the trailing characters Python's `isspace` accepts |
| Text.Strip | app.py:82 | `strip()`: `rstrip()` after `lstrip()` |
| Text.TrimLeftDropsSpace | app.py:82 | `lstrip` removes a leading run of whitespace and nothing else; what remains is a suffix that starts with a non-space or is empty |
| Text.TrimRightDropsSpace | app.py:82 | `rstrip` removes a trailing run of whitespace and nothing else; what remains is a prefix that ends with a non-space or is empty |
| Text.StripSlice | app.py:82 | `strip()` returns a contiguous slice of its input, only whitespace lies outside it, and the result has no whitespace at either end |
| Text.StrippedFixed | app.py:82 | a string with no whitespace at its ends is its own `strip()` |
| Text.StripIdempotent | app.py:107 | stripping twice gives what stripping once gives, so the `.strip()` on an already stripped content changes nothing |
| Text.Lower | app.py:60 | `lower()` keeps the length and lower-cases each character on its own |
| Text.IndexOf | app.py:99 | a found index is at or after the start position and `pat` occurs there |
| Text.IndexOfFirst | app.py:99 | the index found is the first occurrence, and finding none means `pat` occurs nowhere from the start position on |
| Text.ContainsIff | app.py:99 | Python's `pat in s` holds exactly when `pat` occurs at some index |
| Text.Replace | app.py:100 | `replace` of one character keeps the length and swaps exactly the matching characters |
| Text.ReplaceAbsent | app.py:100 | replacing a character the string does not hold changes nothing |
| Text.Count | app.py:106 | `count` of a character is the number of its occurrences, so it is 0 exactly when it is absent and at most the length |
| Text.Split | app.py:100 | `split` always gives at least one piece |
| Text.SplitJoin | app.py:100 | joining the pieces of `split(d)` with `d` gives back the string |
| Text.SplitAtFirst | app.py:100 | a string without `d` splits into itself; text before the first `d` is the first piece and the rest splits on its own |
| Text.SplitKeepsOccurrence | app.py:100-102 | an occurrence of a pattern free of `d` lies wholly inside one piece of `split(d)` |
| Text.FirstPieceIsPrefix | app.py:100 | the first piece of `split(d)` is the prefix before the first `d` |
| Text.LastIndex | app.py:60 | the index found holds `d` and no later index below the bound does; none found means no `d` below the bound |
| Text.AfterLast | app.py:60 | `rsplit(d, 1)[-1]` is a suffix without `d`, preceded by a `d` whenever the string holds one, and the whole string when it holds none |
| Text.LastPiece | app.py:103 | `p.split(pat)[-1]`: the text after the last non-overlapping match of `pat`, found from the left, or `p` when there is none |
| Text.LastPieceSuffix | app.py:103 | `p.split(pat)[-1]` is a suffix of `p` that does not contain `pat` |
| Text.LastPieceFollowsMatch | app.py:103 | when `p` contains `pat`, `p` ends with `pat` followed by `p.split(pat)[-1]` |
| Uploads.AllowedFile | app.py:56-60 | `allowed_file`: `None` and the empty name are refused; otherwise the name needs a dot and its lower-cased text after the last dot must be in `ALLOWED_TEXT_EXT` |
| Uploads.AllowedFileIff | app.py:57-60 | `None` is refused; a name is allowed exactly when it has a last dot and the lower-cased text after it is `txt`, `json` or `cookie`, so the empty name is refused too |
| Uploads.UpperCaseAllowed | app.py:60 | `notes.TXT` is allowed: the extension is lower-cased before the lookup |
| Uploads.LastDotDecides | app.py:60 | `archive.txt.zip` is refused: only the text after the last dot counts |
| Uploads.DotRequired | app.py:60 | `txt` with no dot is refused |
| LogBuffer.Bounded | app.py:68-69 | the trim of `append_log`: a log longer than 800 entries keeps its last 800 |
| LogBuffer.Appended | app.py:63-69 | one `append_log`: the entry is added at the end and the log is trimmed |
| LogBuffer.BoundedNewest | app.py:68-69 | bounding keeps the newest `min(len, 800)` entries in their order |
| LogBuffer.AppendedShape | app.py:66-69 | after one append to a log within the cap the log is within the cap and ends with the new entry; below the cap it is the old log plus the entry, at the cap it loses only its oldest entry |
| LogBuffer.BoundedAbsorbs | app.py:67-69 | trimming the log before an append does not change the log after it |
| LogBuffer.AppendAllKeepsNewest | app.py:63-69 | appending entries one at a time keeps exactly the newest 800 of the old log followed by the new entries |
| LogBuffer.Overflow | app.py:67-69 | after 800 or more appends, the log is exactly the newest 800 of them |
| Session.ExtractSessionId | app.py:86-109 | `extract_sessionid_from_file` on the text read: nothing for blank content, else the JSON answer, else the cookie-line answer when `sessionid=` occurs, else the raw token when it is longer than 10 characters with fewer than 3 newlines, else nothing |
| Session.JsonStep | app.py:89-96 | the JSON attempt: when the content decodes to an object, its first truthy key of `sessionid`, `session`, `cookie`, stripped; anything else falls through |
| Session.Segments | app.py:100 | the cookie segments: newlines replaced by `;`, then split on `;` |
| Session.JsonLookup | app.py:92-94 | the lookup gives nothing exactly when none of the keys is present with a truthy value |
| Session.JsonLookupFirst | app.py:92-94 | the lookup answers with the first key present with a truthy value, its `str()` stripped |
| Session.FirstContaining | app.py:101-102 | the index found is of a segment holding `sessionid=` and no earlier segment holds it; none found means no segment holds it |
| Session.EmptyGivesNone | app.py:86-87 | an empty or all-whitespace file gives no session id |
| Session.JsonFirst | app.py:89-94 | a JSON object is tried before every other format: its `sessionid` if truthy, else `session`, else `cookie`, stripped |
| Session.CookieBranch | app.py:98-103 | with no JSON answer and `sessionid=` in the content, the cookie branch always answers, with the stripped text after the last `sessionid=` in the first segment holding one; the raw fallback is not reached |
| Session.RawFallback | app.py:105-109 | with neither, the content is the token exactly when it is longer than 10 characters and has fewer than 3 newlines, else there is none |
| Session.CookieLineExample | app.py:98-103 | the file `sessionid=ABC123;` gives `ABC123` |
| Jobs.StartStep | app.py:237-329 | `start` on the job fields: each check in order logs its refusal and changes nothing; an accepted start logs the upload and the parse, sets the job fields and names the worker's arguments |
| Jobs.RequestedThreadUid | app.py:278-288 | the thread UID: the stripped thread file when one is uploaded, else the stripped text field |
| Jobs.SpeedSetting | app.py:294-306 | the interval: 5, or the parsed number of a non-blank speed file, with the failure line when it does not parse |
| Jobs.StopStep | app.py:333-339 | `stop` on the job fields: clears `running` and logs the user stop, or only logs that nothing runs |
| Jobs.SendAttempt | app.py:133-146 | the single send: `direct_send`, and on failure `message_send`; `last_error` is set only when both raise |
| Jobs.WorkerStep | app.py:113-157 | one worker run: a missing client import, a raising `Client()`, a failed login or the send with the logout and the finish |
| Jobs.CookiesReadBack | app.py:258-309 | the text read at the cookies path after every upload is saved is the last upload saved under the cookies file's stored name |
| Jobs.StartWhileRunning | app.py:239-241 | `start` while a job runs changes no field, spawns no worker and only logs |
| Jobs.StartLaunchesIff | app.py:237-329 | `start` spawns the worker exactly when every check passes: not running, cookies file, message file, non-blank message, non-blank thread UID, non-empty session id |
| Jobs.SpeedSettingInterval | app.py:294-306 | the interval is 5 unless a speed file with non-blank text parses, and then it is the parsed number; a line is logged exactly when a non-blank speed file does not parse |
| Jobs.StartRejectKeepsJob | app.py:239-312 | a rejected `start` leaves every field of `state` as it was and spawns nothing |
| Jobs.StartAcceptSetsJob | app.py:316-328 | an accepted `start` sets `running`, the thread id, the message and the interval from the request, clears `last_error`, and hands the same values and the session id to the worker |
| Jobs.StopClearsRunning | app.py:333-339 | `stop` always leaves `running` false, changes no other field and logs one line |
| Jobs.WorkerExits | app.py:113-157 | the first line is always `Worker started.`; when `Client()` raises (app.py:121, outside every `try`) nothing else is logged and the job is left as it was, still running; every other exit leaves `running` false, keeps the thread id, message and interval, ends with a line saying why it stopped, and sets `last_error` to the failure or keeps its old value |
| Jobs.WorkerReportsSentIff | app.py:113-146 | the worker logs the message as sent exactly when the client imported and was created, the login succeeded and one of the two sends did not raise |
| Jobs.WorkerIgnoresStop | app.py:113-157 | a `stop` before the worker ends changes nothing the worker logs; the job it leaves is the same unless `Client()` raised, and then it is the job as `stop` left it |
| Jobs.StopThenRestartOverlap | app.py:121-156 | after start, stop and a second start, the first worker's exit clears `running` for the second job, so a third start is accepted while the second worker has yet to run; only when the first worker's `Client()` raised does the second job stay running and a third start get refused |
| Jobs.App.constructor | app.py:45-52 | the initial `state`: not running, no thread id or message, interval 5, empty log, no error |
| Jobs.App.AppendLog | app.py:63-69 | one `append_log` updates the log in place to the bounded append of the new entry and changes no other field |
| Jobs.App.Start | app.py:237-329 | the `/start` handler updates the fields as `StartStep` says, logs its lines in order on the bounded log, and spawns the worker `StartStep` names |
| Jobs.App.StartIdle | app.py:250-252 | the same, once the job is known not to run: a missing cookies file is refused |
| Jobs.App.StartWithCookies | app.py:253-255 | the same, once the cookies file is present: a missing message file is refused |
| Jobs.App.StartWithFiles | app.py:257-276 | the same, once both files are present: the upload is logged and a blank message is refused |
| Jobs.App.StartWithMessage | app.py:278-292 | the same, once the message is read: a blank thread UID is refused |
| Jobs.App.ReadThreadUid | app.py:278-288 | the thread UID is the stripped thread file when one is uploaded, else the stripped text field, and the folder holds the saved uploads |
| Jobs.App.StartWithThread | app.py:294-314 | the same, once the thread UID is known: the speed file is read, then the session id is extracted from the file at the cookies path |
| Jobs.App.Launch | app.py:308-328 | with no session id only a refusal is logged; with one, the job fields are set and the worker is spawned |
| Jobs.App.ReadSpeed | app.py:295-306 | the interval is the one `SpeedSetting` names, and a parse failure is logged |
| Jobs.App.Stop | app.py:333-339 | the `/stop` handler updates the fields as `StopStep` says and logs its line |
| Jobs.App.Worker | app.py:113-157 | one worker run updates the fields as `WorkerStep` says and logs its lines in order, returning after its first line when `Client()` raises |
| Jobs.App.SendAndFinish | app.py:133-157 | after a login the worker logs the send attempt, the logout and the finish, clears `running` and sets `last_error` only when both sends raise |
| Stream.PollOnce | app.py:354-359 | one wake-up: `log[last_index:]` is sent and `last_index` moves past it |
| Stream.Run | app.py:351-359 | the wake-ups in order on successive views of the log, from `last_index = 0`: everything sent, and the final cursor |
| Stream.EventStream | app.py:350-359 | the generator's loop sends, for each wake-up, `log[last_index:]` in order and advances `last_index` by what it sent, as `Run` specifies |
| Stream.PollOnceCursor | app.py:354-359 | a wake-up moves the cursor to the log's length if it was below it and leaves it otherwise, and sends nothing exactly when the cursor is at or past the end |
| Stream.RunCursor | app.py:351-359 | the cursor never moves back: it is the length of the longest log seen so far |
| Stream.RunWithoutEviction | app.py:351-359 | while nothing is evicted, every entry is sent exactly once and in order |
| Stream.PollAfterWrap | app.py:354-359 | once 800 or more entries were appended, a cursor below 800 sends only the newest `800 - cursor` entries, and a cursor at 800 sends nothing |
| Stream.StreamStalls | app.py:351-359 | after a wake-up that saw the first 800 entries, a later wake-up sends nothing although newer entries were appended |
| Stream.PollSinceDelivers | app.py:351-359 | a poll that counts appended entries sends exactly the entries appended since the cursor that are still in the log, oldest first, and always sends something when something was appended |
| Stream.RunSinceDeliversAll | app.py:351-359 | with that poll, every entry is sent once and in order, whatever the log's length, as long as at most 800 entries are appended between wake-ups |

## Left out

- Flask routing, redirects, the HTML page, `/logs` and `jsonify`: web plumbing with no logic of its own.
- Saving and reading files, `secure_filename` and `os.makedirs`: an upload is its stored name plus the text read back from it. A file that cannot be read (app.py:80-84, 267-272, 284-288) is not modelled, because reading with `errors="ignore"` from a file just saved is assumed to succeed.
- The `instagrapi` client: the import, `Client()`, the login, both sends and the logout are inputs (`WorkerEnv`), each ending normally or raising with a given `repr`. A raising `Client()` ends the worker thread with the exception unhandled; the model stops the step there and does not model the traceback Python prints.
- Threads, `log_lock` and `time.sleep`: each `append_log`, each transition and each wake-up of the stream is one atomic step. So the window between `start` checking `running` and setting it, where two requests could both pass, is not modelled.
- `time.strftime`: the timestamp is the parameter `now`.
- `int(float(raw))`: the parsed speed file is given as a number or a parse error (`SpeedParse`); floating-point parsing is not modelled.
- `json.loads`: the parameter `parseJson`, giving the object when the content decodes to a JSON object. Anything else falls through, as in the code, where the `TypeError` from a non-object is swallowed.
- The worker's outer handler for an unexpected error in the send flow (app.py:147-149): it can only fire if logging itself raises.
- `json.dumps` and the `data:` framing of the stream events: an event carries the entry, whose text is `Jobs.Formatted`.
- The interval stored with the job is handed to the worker but never used there, and `allowed_file` is defined but never called by the routes; the model keeps both as they are.
- Text.Lower: lower-cases only the characters whose lower case is an ASCII letter (`A`-`Z` and the Kelvin sign) and leaves every other character as it is. Python lower-cases more, but no other character lower-cases to text that could form `txt`, `json` or `cookie`, so `Uploads.AllowedFile` decides every name as the code does.

## Findings

| source | as written | input that shows it | evidently intended | confidence | as-written member | corrected member |
|---|---|---|---|---|---|---|
| app.py:351-359 | the stream's cursor `last_index` is a position in a log that drops its oldest entry on every append once it holds 800, so the positions stop following the entries | more than 800 log entries: once a viewer has been sent the first 800, `log[800:]` is empty forever and the console shows nothing more; a viewer whose cursor is below 800 when the log wraps skips entries | every new log entry reaches the live console, once and in order | high; not executed | `Stream.StreamStalls` | `Stream.RunSinceDeliversAll` |

The corrected poll `Stream.PollSince` keeps as its cursor the number of
entries appended so far, which needs a count of appends kept beside the log.
`Stream.EventStream` still models the generator as written.
