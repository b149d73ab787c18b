/** `POST /schedule/{company_id}/create`: validates a scheduling request and
    queues one job document under `scheduled_posts/{company_id}/posts` for
    the scheduler. */
module SchedularRoutes {
  import opened Values
  import opened Store
  import opened PlannerRoutes
  import opened SchedulerService

  /** `SchedularRequest`; it has no `month_id` field. */
  datatype SchedularRequest = SchedularRequest(
    theme: Option<string>,
    themeDescription: Option<string>,
    instagramPostCount: int,
    facebookPostCount: int,
    linkedinPostCount: int,
    scheduledDate: string)

  /** `not x` on an optional string. */
  predicate Blank(s: Option<string>) {
    s.None? || s.value == ""
  }

  function OptStr(s: Option<string>): Value {
    if s.None? then Null else Str(s.value)
  }

  const CompanyMissing: Exc := HttpException(404, "  coudn't find the company")
  const NoCounts: Exc := HttpException(400, "At least one post count is required")
  const NoTheme: Exc := HttpException(400, "  theme is required")
  const NoDescription: Exc := HttpException(400, "  theme description is required")

  /** The checks, in order: the first one that fails. */
  function Rejection(db: Db, cid: string, req: SchedularRequest): (r: Option<Exc>)
    ensures r == Some(CompanyMissing) <==> CompanyPath(cid) !in db
    ensures r.None? <==>
      (&& CompanyPath(cid) in db
       && (req.instagramPostCount != 0 || req.facebookPostCount != 0 || req.linkedinPostCount != 0)
       && !Blank(req.theme) && !Blank(req.themeDescription))
  {
    if CompanyPath(cid) !in db then Some(CompanyMissing)
    else if req.instagramPostCount == 0 && req.facebookPostCount == 0 && req.linkedinPostCount == 0 then Some(NoCounts)
    else if Blank(req.theme) then Some(NoTheme)
    else if Blank(req.themeDescription) then Some(NoDescription)
    else None
  }

  /** The generation request stored in the job. */
  function PostData(req: SchedularRequest): (r: map<string, Value>)
    ensures r.Keys == {"theme", "theme_description", "instagram_post_count", "facebook_post_count", "linkedin_post_count"}
  {
    map[
      "theme" := OptStr(req.theme),
      "theme_description" := OptStr(req.themeDescription),
      "instagram_post_count" := Int(req.instagramPostCount),
      "facebook_post_count" := Int(req.facebookPostCount),
      "linkedin_post_count" := Int(req.linkedinPostCount)]
  }

  /** The job document without `month_id`. */
  function JobDoc(cid: string, req: SchedularRequest): (d: Doc)
    ensures d.Keys == {"post_data", "status", "company_id", "created_at", "updated_at"}
    ensures d["created_at"] == d["updated_at"] == ServerTimestamp
  {
    map[
      "post_data" := Dict(PostData(req)),
      "status" := Str("pending"),
      "company_id" := Str(cid),
      "created_at" := ServerTimestamp,
      "updated_at" := ServerTimestamp]
  }

  /** Any failure other than an `HTTPException`. */
  function CreateFailure(cid: string, e: Exc): Exc {
    HttpException(500, "Couldn't create post for " + cid + ": " + Text(e))
  }

  function ScheduledResponse(db: Db, cid: string, jid: string): Value
    requires CompanyPath(cid) in db
  {
    Dict(map[
      "status" := Str("pending"),
      "id" := Str(jid),
      "message" := Str("Post scheduled successfully for company " + Show(Get(db[CompanyPath(cid)], "name", Str(cid))))])
  }

  /** The handler, given how `schedular.month_id` evaluates: the fields it
      adds to the job, or the exception reading it raises. `jid` is the id
      Firestore's `add` picks and `commit` the time the write commits. */
  function Schedule(db: Db, cid: string, req: SchedularRequest, jid: string, commit: DateTime, month: Result<Doc, Exc>): (r: (Db, Result<Value, Exc>))
  {
    match Rejection(db, cid, req)
    case Some(e) => (db, Err(e))
    case None =>
      match month
      case Err(e) => (db, Err(CreateFailure(cid, e)))
      case Ok(extra) => (Set(db, JobPath(cid, jid), JobDoc(cid, req) + extra, commit), Ok(ScheduledResponse(db, cid, jid)))
  }

  /** Reading `month_id`, which `SchedularRequest` does not declare. */
  const MonthIdMissing: Exc := NoAttribute(Object("SchedularRequest"), "month_id")

  /** As written: line 50 reads `schedular.month_id`. */
  function SchedulePost(db: Db, cid: string, req: SchedularRequest, jid: string, commit: DateTime): (Db, Result<Value, Exc>) {
    Schedule(db, cid, req, jid, commit, Err(MonthIdMissing))
  }

  /** With the `month_id` entry left out of the job. */
  function SchedulePostFixed(db: Db, cid: string, req: SchedularRequest, jid: string, commit: DateTime): (Db, Result<Value, Exc>) {
    Schedule(db, cid, req, jid, commit, Ok(map[]))
  }

  /** The checks come first, in order, and a rejected request writes
      nothing; the same holds with or without the `month_id` read. */
  lemma RejectedWritesNothing(db: Db, cid: string, req: SchedularRequest, jid: string, commit: DateTime, month: Result<Doc, Exc>)
    ensures var r := Schedule(db, cid, req, jid, commit, month);
      && (CompanyPath(cid) !in db ==> r == (db, Err(CompanyMissing)))
      && (CompanyPath(cid) in db && req.instagramPostCount == 0 && req.facebookPostCount == 0 && req.linkedinPostCount == 0
          ==> r == (db, Err(NoCounts)))
      && (Rejection(db, cid, req).Some? ==> r.0 == db && r.1 == Err(Rejection(db, cid, req).value))
  {
  }

  /** As written, no request creates a job: a request passing every check
      ends in 500 with the missing attribute named, and nothing is written. */
  lemma SchedulePostNeverSchedules(db: Db, cid: string, req: SchedularRequest, jid: string, commit: DateTime)
    ensures SchedulePost(db, cid, req, jid, commit).0 == db
    ensures SchedulePost(db, cid, req, jid, commit).1.Err?
    ensures Rejection(db, cid, req).None? ==>
      SchedulePost(db, cid, req, jid, commit).1.error == CreateFailure(cid, MonthIdMissing)
  {
  }

  /** Corrected: a request passing the checks adds exactly one document, a
      `pending` job whose `post_data` holds the theme, its description and
      the three counts, and answers with the job id. */
  lemma SchedulePostFixedQueues(db: Db, cid: string, req: SchedularRequest, jid: string, commit: DateTime)
    requires Rejection(db, cid, req).None?
    ensures var (d, r) := SchedulePostFixed(db, cid, req, jid, commit);
      && r.Ok? && r.value.Dict? && r.value.fields["id"] == Str(jid) && r.value.fields["status"] == Str("pending")
      && d.Keys == db.Keys + {JobPath(cid, jid)}
      && (forall q :: q in db && q != JobPath(cid, jid) ==> d[q] == db[q])
      && d[JobPath(cid, jid)]["status"] == Str("pending")
      && d[JobPath(cid, jid)]["post_data"].Dict?
      && d[JobPath(cid, jid)]["post_data"].fields.Keys
         == {"theme", "theme_description", "instagram_post_count", "facebook_post_count", "linkedin_post_count"}
      && "scheduled_at" !in d[JobPath(cid, jid)]
      && d[JobPath(cid, jid)]["created_at"] == Time(commit) && d[JobPath(cid, jid)]["updated_at"] == Time(commit)
  {
    var job := JobDoc(cid, req);
    assert job + map[] == job;
    var d := Set(db, JobPath(cid, jid), job, commit);
    assert SchedulePostFixed(db, cid, req, jid, commit) == (d, Ok(ScheduledResponse(db, cid, jid)));
    QueuedDoc(cid, req, commit, d[JobPath(cid, jid)]);
  }

  /** The job document as stored. */
  lemma QueuedDoc(cid: string, req: SchedularRequest, commit: DateTime, stored: Doc)
    requires stored.Keys == JobDoc(cid, req).Keys
    requires forall k :: k in JobDoc(cid, req) ==> stored[k] == Stamped(JobDoc(cid, req)[k], commit)
    ensures stored["status"] == Str("pending")
    ensures stored["post_data"] == Dict(PostData(req))
    ensures "scheduled_at" !in stored
    ensures stored["created_at"] == Time(commit) && stored["updated_at"] == Time(commit)
  {
    var job := JobDoc(cid, req);
    assert stored["post_data"] == Stamped(job["post_data"], commit);
    assert stored["status"] == Stamped(job["status"], commit);
    assert stored["created_at"] == Stamped(job["created_at"], commit);
    assert stored["updated_at"] == Stamped(job["updated_at"], commit);
  }

  /** A job the corrected handler queues has no `scheduled_at`, so the
      scheduler's query never selects it. */
  lemma QueuedJobNeverDue(db: Db, cid: string, req: SchedularRequest, jid: string, commit: DateTime, now: DateTime)
    requires Rejection(db, cid, req).None?
    ensures !Due(SchedulePostFixed(db, cid, req, jid, commit).0[JobPath(cid, jid)], now)
  {
    SchedulePostFixedQueues(db, cid, req, jid, commit);
  }
}
