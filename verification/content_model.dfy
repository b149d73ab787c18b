/** The `ContentSaveRequest` model of a post: its `scheduled_time` validator,
    the `scheduled_datetime` it derives and `is_future_schedule`. */
module ContentModel {
  import opened Values

  /** `s.replace('Z', '+00:00')`, applied before every ISO parse. */
  function ZRewrite(s: string): string {
    ReplaceAll(s, "Z", "+00:00")
  }

  /** No 'Z' survives the rewrite, and a string without one is untouched. */
  lemma ZRewriteSpec(s: string)
    ensures 'Z' !in ZRewrite(s)
    ensures 'Z' !in s ==> ZRewrite(s) == s
  {
    ReplaceCharRemoves(s, 'Z', "+00:00");
    if 'Z' !in s {
      forall i | 0 <= i <= |s| - 1
        ensures !OccursAt(s, "Z", i)
      {
        assert s[i..i + 1] == [s[i]];
      }
      ReplaceAbsent(s, "Z", "+00:00");
    }
  }

  /** Rewriting twice is rewriting once. */
  lemma ZRewriteIdempotent(s: string)
    ensures ZRewrite(ZRewrite(s)) == ZRewrite(s)
  {
    ZRewriteSpec(s);
    ZRewriteSpec(ZRewrite(s));
  }

  /** `datetime.fromisoformat(s.replace('Z', '+00:00'))`. */
  function ParseIso(env: Env, s: string): Option<DateTime> {
    env.parse(ZRewrite(s))
  }

  /** What `datetime.fromisoformat` raises on a string it cannot parse: the
      message carries the string's `repr`. */
  function BadIso(s: string): Exc {
    ValueError("Invalid isoformat string: " + ReprStr(s))
  }

  /** `datetime.replace` takes `year` as its first positional argument, so
      `dt.replace('Z', '+00:00')` fails on the string. */
  const ReplaceOnDatetime: string := "'str' object cannot be interpreted as an integer"

  /** The `scheduled_time` validator: `None` passes; a string passes, and is
      kept verbatim, iff it parses after the 'Z' rewrite. */
  function ValidateScheduledTime(env: Env, v: Option<string>): (r: Result<Option<string>, Exc>)
    ensures r.Ok? ==> r.value == v
    ensures r.Ok? <==> v.None? || ParseIso(env, v.value).Some?
    ensures r.Err? ==> r.error.ValueError?
  {
    match v
    case None => Ok(None)
    case Some(s) =>
      if ParseIso(env, s).Some? then Ok(v)
      else Err(ValueError("scheduled_time must be in ISO format (e.g., \"2024-01-15T14:30:00\" or \"2024-01-15T14:30:00Z\")"))
  }

  /** The `scheduled_datetime` property. */
  function ScheduledDatetime(env: Env, v: Option<string>): (r: Option<DateTime>)
    ensures v.None? || v == Some("") ==> r.None?
    ensures v.Some? && v.value != "" ==> r == ParseIso(env, v.value)
  {
    if v.Some? && v.value != "" then ParseIso(env, v.value) else None
  }

  /** A validated request has a datetime exactly when its time is a
      non-empty string. */
  lemma ValidatedHasDatetime(env: Env, v: Option<string>)
    requires ValidateScheduledTime(env, v).Ok?
    ensures ScheduledDatetime(env, v).Some? <==> v.Some? && v.value != ""
  {
  }

  /** `is_future_schedule()`: an aware time is compared with the UTC clock,
      a naive one with the local clock. */
  function IsFutureSchedule(env: Env, v: Option<string>, nowUtc: int, nowLocal: int): (r: bool)
    ensures r ==> ScheduledDatetime(env, v).Some?
    ensures ScheduledDatetime(env, v).Some? && ScheduledDatetime(env, v).value.aware ==>
      (r <==> ScheduledDatetime(env, v).value.stamp > nowUtc)
    ensures ScheduledDatetime(env, v).Some? && !ScheduledDatetime(env, v).value.aware ==>
      (r <==> ScheduledDatetime(env, v).value.stamp > nowLocal)
  {
    match ScheduledDatetime(env, v)
    case None => false
    case Some(dt) => dt.stamp > (if dt.aware then nowUtc else nowLocal)
  }
}
