/**
 * The two MVC filters of the third Web API exercise (namespace EmployeeWebApi.Filters):
 * `CustomAuthFilter`, which turns a request away before the action unless its
 * Authorization header mentions "Bearer", and `CustomExceptionFilter`, which logs an
 * escaping exception to a per-day file and replaces it with a fixed 500 response.
 */
module EmployeeWebApiFilters {
  import opened Text
  import opened Http

  // ---------------------------------------------------------------- CustomAuthFilter

  const NoAuthToken := "Invalid request - No Auth token"
  const NoBearer := "Invalid request - Token present but Bearer unavailable"

  /** What `OnActionExecuting` leaves in `context.Result`: a 400, or nothing so the action runs. */
  datatype Gate = Reject(message: string) | Proceed

  /**
   * The header decision; `authorization` is the Authorization header's value, `None`
   * when the request has no such header.
   */
  function CheckAuthorization(authorization: Option<string>): (g: Gate)
    ensures authorization.None? ==> g == Reject(NoAuthToken)
    ensures authorization.Some? ==>
      (g == Proceed <==> exists i: nat :: OccursAt(authorization.value, "Bearer", i))
    ensures authorization.Some? && g != Proceed ==> g == Reject(NoBearer)
  {
    if authorization.None? then Reject(NoAuthToken)
    else
      ContainsIff(authorization.value, "Bearer");
      if !Contains(authorization.value, "Bearer") then Reject(NoBearer)
      else Proceed
  }

  /** The test is a substring test: "Bearer" anywhere in the value lets the request through. */
  lemma BearerAnywherePasses(before: string, after: string)
    ensures CheckAuthorization(Some(before + "Bearer" + after)) == Proceed
  {
    assert (before + "Bearer" + after)[|before|..|before| + 6] == "Bearer";
    assert OccursAt(before + "Bearer" + after, "Bearer", |before|);
  }

  /** The test is case-sensitive: a lower-case "bearer" is turned away. */
  lemma BearerCaseMatters()
    ensures CheckAuthorization(Some("bearer abc")) == Reject(NoBearer)
  {
    forall i: nat ensures !OccursAt("bearer abc", "Bearer", i) {
      if i + 6 <= 10 {
        assert "bearer abc"[i..i + 6][0] == "bearer abc"[i];
        assert "Bearer"[0] == 'B';
      }
    }
  }

  /** The token itself is never looked at: "Bearer" anywhere, even alone, is enough. */
  lemma BearerAloneIsEnough()
    ensures CheckAuthorization(Some("Token Bearer")) == Proceed
    ensures CheckAuthorization(Some("Bearer")) == Proceed
  {
    BearerAnywherePasses("Token ", "");
    BearerAnywherePasses("", "");
  }

  /** The two rejections are told apart by their messages. */
  lemma RejectionsDiffer()
    ensures NoAuthToken != NoBearer
    ensures CheckAuthorization(None) != CheckAuthorization(Some(""))
  {
    assert |NoAuthToken| != |NoBearer|;
  }

  // ----------------------------------------------------------- CustomExceptionFilter

  const ErrorText := "Internal server error occurred"

  /** A calendar instant, as `DateTime` holds it to the second. */
  datatype DateTime = DateTime(year: nat, month: nat, day: nat, hour: nat, minute: nat, second: nat)

  /** The parts of an exception the filter reads. */
  datatype Exception = Exception(typeName: string, message: string, stackTrace: string)

  /** The anonymous body `new { error, message, timestamp }`. */
  datatype ErrorBody = ErrorBody(error: string, message: string, timestamp: DateTime)

  /** The response the filter installs: `ObjectResult` with its status code. */
  datatype ObjectResult = ObjectResult(statusCode: int, body: ErrorBody)

  /** A date `DateTime` can hold: four-digit year, month 1-12, day 1-31. */
  predicate ValidDay(t: DateTime) {
    1 <= t.year <= 9999 && 1 <= t.month <= 12 && 1 <= t.day <= 31
  }

  /** `{time:yyyyMMdd}`. */
  function DayStamp(t: DateTime): string {
    PadDigits(t.year, 4) + PadDigits(t.month, 2) + PadDigits(t.day, 2)
  }

  /** `{time:yyyy-MM-dd HH:mm:ss}`. */
  function TimeStamp(t: DateTime): string {
    PadDigits(t.year, 4) + "-" + PadDigits(t.month, 2) + "-" + PadDigits(t.day, 2) + " " +
    PadDigits(t.hour, 2) + ":" + PadDigits(t.minute, 2) + ":" + PadDigits(t.second, 2)
  }

  /** The per-day log file, inside the Logs directory. */
  function LogFileName(t: DateTime): (name: string)
    ensures |name| >= 15 && name[..11] == "exceptions_" && name[|name| - 4..] == ".txt"
  {
    "exceptions_" + DayStamp(t) + ".txt"
  }

  /** All exceptions of one day share one file; different days never share a file. */
  lemma LogFilePerDay(t: DateTime, u: DateTime)
    requires ValidDay(t) && ValidDay(u)
    ensures LogFileName(t) == LogFileName(u) <==> (t.year, t.month, t.day) == (u.year, u.month, u.day)
  {
    if LogFileName(t) == LogFileName(u) {
      DayStampParts(t);
      DayStampParts(u);
      assert LogFileName(t)[11..19] == DayStamp(t);
      assert LogFileName(u)[11..19] == DayStamp(u);
      PadDigitsInjective(t.year, u.year, 4);
      PadDigitsInjective(t.month, u.month, 2);
      PadDigitsInjective(t.day, u.day, 2);
    }
  }

  /** For a valid day, `yyyyMMdd` is eight characters: year, month and day at fixed places. */
  lemma DayStampParts(t: DateTime)
    requires ValidDay(t)
    ensures |DayStamp(t)| == 8
    ensures DayStamp(t)[..4] == PadDigits(t.year, 4)
    ensures DayStamp(t)[4..6] == PadDigits(t.month, 2)
    ensures DayStamp(t)[6..] == PadDigits(t.day, 2)
  {
    PadDigitsWidth(t.year, 4);
    PadDigitsWidth(t.month, 2);
    PadDigitsWidth(t.day, 2);
  }

  /**
   * One log entry: the local time, " - ", the exception's type name, ": " and its
   * message on one line, then the stack trace and a blank line.
   */
  function LogEntry(t: DateTime, e: Exception): (entry: string)
    ensures |entry| == |TimeStamp(t)| + |e.typeName| + |e.message| + |e.stackTrace| + 8
    ensures entry[..|TimeStamp(t)|] == TimeStamp(t)
    ensures OccursAt(entry, " - " + e.typeName + ": " + e.message + "\n", |TimeStamp(t)|)
    ensures entry[|entry| - |e.stackTrace| - 2..] == e.stackTrace + "\n\n"
  {
    var head := TimeStamp(t);
    var line := " - " + e.typeName + ": " + e.message + "\n";
    var tail := e.stackTrace + "\n\n";
    var entry := head + line + tail;
    assert entry[|head|..|head| + |line|] == line;
    assert entry == TimeStamp(t) + " - " + e.typeName + ": " + e.message + "\n" + e.stackTrace + "\n\n";
    entry
  }

  /**
   * Log files by name. Appending may fail (the Logs directory cannot be created, the
   * file is locked, ...); the failure is swallowed and leaves the files as they were.
   */
  class LogStore {
    var files: map<string, string>
    /** Console lines written when logging fails. */
    var console: seq<string>

    constructor ()
      ensures files == map[] && console == []
    {
      files := map[];
      console := [];
    }

    /**
     * `LogExceptionToFile`: appends the entry to the day's file, or reports the failure.
     * `DateTime.Now` is read twice: `now` names the file, `stamp` heads the entry, so
     * an entry stamped just after midnight can land in the previous day's file.
     */
    method LogException(now: DateTime, stamp: DateTime, e: Exception, failure: Option<string>)
      modifies this
      ensures failure.None? ==>
        var name := LogFileName(now);
        var before := if name in old(files) then old(files)[name] else "";
        files == old(files)[name := before + LogEntry(stamp, e)] && console == old(console)
      ensures failure.Some? ==>
        files == old(files) && console == old(console) + [LogFailureLine(failure.value)]
    {
      if failure.Some? {
        console := console + [LogFailureLine(failure.value)];
        return;
      }
      var name := LogFileName(now);
      var before := if name in files then files[name] else "";
      files := files[name := before + LogEntry(stamp, e)];
    }
  }

  /** The console line of a failed append. */
  function LogFailureLine(message: string): string {
    "Failed to log exception: " + message
  }

  /** The filter's side of `ExceptionContext`: the result it sets and the handled flag. */
  class ExceptionContext {
    const exception: Exception
    var result: Option<ObjectResult>
    var exceptionHandled: bool

    constructor (e: Exception)
      ensures exception == e && result.None? && !exceptionHandled
    {
      exception := e;
      result := None;
      exceptionHandled := false;
    }
  }

  /** The response `OnException` builds for an exception at UTC time `utcNow`. */
  function ErrorResult(e: Exception, utcNow: DateTime): (r: ObjectResult)
    ensures r.statusCode == 500
    ensures r.body.error == ErrorText && r.body.message == e.message && r.body.timestamp == utcNow
  {
    ObjectResult(500, ErrorBody(ErrorText, e.message, utcNow))
  }

  /** The response does not depend on the exception's type or stack trace, only on its message. */
  lemma ErrorResultHidesTypeAndTrace(a: Exception, b: Exception, utcNow: DateTime)
    requires a.message == b.message
    ensures ErrorResult(a, utcNow) == ErrorResult(b, utcNow)
  {
  }

  /**
   * `OnException`: log once (local times `now` for the file, `stamp` for the entry), then
   * install the 500 result (UTC time `utcNow`) and mark the exception handled, whether or
   * not logging failed.
   */
  method OnException(context: ExceptionContext, log: LogStore, now: DateTime, stamp: DateTime,
                     utcNow: DateTime, logFailure: Option<string>)
    modifies context, log
    ensures context.result == Some(ErrorResult(context.exception, utcNow))
    ensures context.exceptionHandled
    ensures logFailure.None? ==>
      var name := LogFileName(now);
      var before := if name in old(log.files) then old(log.files)[name] else "";
      log.files == old(log.files)[name := before + LogEntry(stamp, context.exception)]
    ensures logFailure.Some? ==> log.files == old(log.files)
    ensures log.console == old(log.console) +
      (if logFailure.Some? then [LogFailureLine(logFailure.value)] else [])
  {
    log.LogException(now, stamp, context.exception, logFailure);
    context.result := Some(ErrorResult(context.exception, utcNow));
    context.exceptionHandled := true;
  }

  /**
   * An exception escaping an action (its `Fault` outcome) passes through the filter: the
   * client gets the status the outcome stands for, 500, with the exception's message,
   * and the exception counts as handled.
   */
  method FaultThroughFilter<T>(r: ActionResult<T>, e: Exception, log: LogStore, now: DateTime,
                               stamp: DateTime, utcNow: DateTime, logFailure: Option<string>)
    returns (context: ExceptionContext)
    requires r.Fault? && r.exception == e.typeName
    modifies log
    ensures context.exception == e && context.exception.typeName == r.exception
    ensures context.result.Some? && context.result.value.statusCode == StatusCode(r)
    ensures context.result.value.body.message == e.message
    ensures context.exceptionHandled
  {
    context := new ExceptionContext(e);
    OnException(context, log, now, stamp, utcNow, logFailure);
  }
}
