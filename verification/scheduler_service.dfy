/** `process_due_posts`: every company document under `scheduled_posts` is
    visited, its jobs with `status == "pending"` and `scheduled_at <= now`
    are listed once, and each listed job is marked `processing`, handed to
    `generate_scheduled_posts`, and ends `completed` or `failed`. A failing
    job does not stop the run. */
module SchedulerService {
  import opened Values
  import opened Channels
  import opened Store
  import opened ContentService

  /** The collection holding one document per company with jobs. */
  const JobsRoot: Path := ["scheduled_posts"]

  /** A company's jobs. */
  function JobsOf(cid: string): Path {
    ["scheduled_posts", cid, "posts"]
  }

  function JobPath(cid: string, jid: string): Path {
    Child(JobsOf(cid), jid)
  }

  /** The query's filter: `status == "pending"` and `scheduled_at <= now`;
      Firestore compares only timestamps with a timestamp, so a job without
      a datetime `scheduled_at` never matches. */
  predicate Due(d: Doc, now: DateTime) {
    && "status" in d && d["status"] == Str("pending")
    && "scheduled_at" in d && d["scheduled_at"].Time? && d["scheduled_at"].t.stamp <= now.stamp
  }

  /** A job is never a unit post. */
  lemma JobIsNotPost(cid: string, jid: string)
    ensures !IsPostDoc(JobPath(cid, jid))
  {
    var q := JobPath(cid, jid);
    assert q[0] == "scheduled_posts";
    assert PostsCollection(Instagram)[0] == 'i' && PostsCollection(Facebook)[0] == 'f' && PostsCollection(LinkedIn)[0] == 'l';
  }

  /** What the job loop calls: the store before, the company and job ids,
      and the generation input; the store after and the response or the
      exception. */
  type Generator = (Db, string, string, map<string, Value>) -> (Db, Result<Value, Exc>)

  /** A generator changes nothing but unit posts. */
  ghost predicate GenContract(gen: Generator) {
    forall db: Db, cid: string, jid: string, input: map<string, Value> ::
      OnlyPostsChanged(db, gen(db, cid, jid, input).0)
  }

  /** As written: `generate_scheduled_posts` is `async` and line 156 does
      not await it, so the call only creates a coroutine; nothing runs. */
  function Unawaited(): Generator {
    (db: Db, cid: string, jid: string, input: map<string, Value>) => (db, Ok(Object("coroutine")))
  }

  /** What an awaited batch sees beyond the store, per job. */
  datatype World = World(
    env: Env,
    oracle: (string, string) -> ((Channel, nat) -> UnitOracle),
    clock: (string, string) -> DateTime)

  /** The call awaited, as the code evidently intends. */
  function Awaited(w: World): Generator {
    (db: Db, cid: string, jid: string, input: map<string, Value>) =>
      GenerateScheduledPosts(db, Batch(cid, input, w.oracle(cid, jid), w.env, w.clock(cid, jid)))
  }

  lemma UnawaitedKeepsContract()
    ensures GenContract(Unawaited())
  {
  }

  lemma AwaitedKeepsContract(w: World)
    ensures GenContract(Awaited(w))
  {
    forall db: Db, cid: string, jid: string, input: map<string, Value>
      ensures OnlyPostsChanged(db, Awaited(w)(db, cid, jid, input).0)
    {
      GenerateOnlyPosts(db, Batch(cid, input, w.oracle(cid, jid), w.env, w.clock(cid, jid)), false);
    }
  }

  /** `{**x}` on a value that is not a mapping. */
  function NotMapping(v: Value): Exc {
    TypeError("'" + TypeName(v) + "' object is not a mapping")
  }

  /** The generation input: the job's `post_data` (default `{}`) with
      `scheduled_time` set to the job's `scheduled_date` (`None` when
      absent) and `company_id` to the company. */
  function JobInput(d: Doc, cid: string): (r: Result<map<string, Value>, Exc>)
    ensures var pd := Get(d, "post_data", Dict(map[]));
      && (r.Ok? <==> pd.Dict?)
      && (r.Err? ==> r.error == NotMapping(pd))
    ensures r.Ok? ==>
      var pd := Get(d, "post_data", Dict(map[])).fields;
      && r.value.Keys == pd.Keys + {"scheduled_time", "company_id"}
      && r.value["scheduled_time"] == Get(d, "scheduled_date", Null)
      && r.value["company_id"] == Str(cid)
      && (forall k :: k in pd && k != "scheduled_time" && k != "company_id" ==> r.value[k] == pd[k])
  {
    var pd := Get(d, "post_data", Dict(map[]));
    if !pd.Dict? then Err(NotMapping(pd))
    else Ok(pd.fields["scheduled_time" := Get(d, "scheduled_date", Null)]["company_id" := Str(cid)])
  }

  /** The first update, before generation. */
  const Processing: Doc := map["status" := Str("processing"), "updated_at" := ServerTimestamp]

  /** The update recording success. */
  function CompletedWith(resp: map<string, Value>): Doc {
    map["status" := Str("completed"), "completed_at" := ServerTimestamp,
        "generated_post_ids" := Get(resp, "post_ids", List([]))]
  }

  /** The update recording a failure. */
  function FailedWith(e: Exc): Doc {
    map["status" := Str("failed"), "error" := Str(Text(e)), "updated_at" := ServerTimestamp]
  }

  /** The fields the job loop writes. */
  const JobFields: set<string> := {"status", "updated_at", "completed_at", "generated_post_ids", "error"}

  /** How a job's turn ends. `Recounted`: the job was marked `completed` and
      counted as processed, then the log line after it raised, so it was
      marked `failed` and counted as failed too. */
  datatype Outcome = Completed | Failed | Recounted

  /** The values `len()` accepts. */
  predicate Sized(v: Value) {
    v.Str? || v.List? || v.Dict? || v.StrSet?
  }

  /** The `TypeError` `len(v)` raises on anything else. */
  function NoLen(v: Value): Exc {
    TypeError("object of type '" + TypeName(v) + "' has no len()")
  }

  /** The commit times of a job's updates: the `processing` one, the
      closing one, and the `failed` one that follows a recount. */
  datatype Commits = Commits(processing: DateTime, closing: DateTime, recount: DateTime)

  /** A job document after its turn: `completed`, or `failed` with an error
      string; a job that got as far as the `completed` update keeps its
      completion time and generated ids; its timestamps are times; the
      fields the loop does not write are as they were. */
  predicate Finished(before: Doc, after: Doc, o: Outcome) {
    && "status" in after && after["status"] == Str(if o == Completed then "completed" else "failed")
    && (o != Failed ==> "generated_post_ids" in after && "completed_at" in after && after["completed_at"].Time?)
    && (o != Completed ==> "error" in after && after["error"].Str?)
    && "updated_at" in after && after["updated_at"].Time?
    && (forall k :: k in before && k !in JobFields ==> k in after && after[k] == before[k])
    && (forall k :: k in after ==> k in before || k in JobFields)
  }

  /** `after` differs from `before` only in unit posts and the documents in
      `touched`, and loses none. */
  predicate ChangedOnly(before: Db, after: Db, touched: set<Path>) {
    && before.Keys <= after.Keys
    && (forall q :: q in before && q !in touched && !IsPostDoc(q) ==> after[q] == before[q])
    && (forall q :: q in after && q !in before ==> IsPostDoc(q))
  }

  /** How the outcome of the `try` block is recorded: the updates written
      after it, in order, and how the job is counted. An exception marks
      the job failed; a dict marks it completed with its `post_ids`, and
      when those have no length the log line that follows raises and the
      job is marked failed as well. */
  function Verdict(res: Result<Value, Exc>): (r: (seq<Doc>, Outcome))
    ensures |r.0| == (if r.1 == Recounted then 2 else 1)
    ensures r.1 != Failed <==> res.Ok? && res.value.Dict?
    ensures r.1 == Recounted <==> res.Ok? && res.value.Dict? && !Sized(Get(res.value.fields, "post_ids", List([])))
    ensures r.1 != Failed ==> r.0[0] == CompletedWith(res.value.fields)
    ensures r.1 == Recounted ==> r.0[1] == FailedWith(NoLen(res.value.fields["post_ids"]))
    ensures r.1 == Failed ==> r.0 == [FailedWith(if res.Err? then res.error else NoAttribute(res.value, "get"))]
  {
    if res.Err? then ([FailedWith(res.error)], Failed)
    else if !res.value.Dict? then ([FailedWith(NoAttribute(res.value, "get"))], Failed)
    else
      var ids := Get(res.value.fields, "post_ids", List([]));
      if Sized(ids) then ([CompletedWith(res.value.fields)], Completed)
      else ([CompletedWith(res.value.fields), FailedWith(NoLen(ids))], Recounted)
  }

  /** The closing updates of a job, written one after the other. */
  function Record(db: Db, p: Path, updates: seq<Doc>, at: Commits): (r: Db)
    requires p in db && 1 <= |updates| <= 2
    ensures r.Keys == db.Keys && forall q :: q in db && q != p ==> r[q] == db[q]
  {
    var d := Update(db, p, updates[0], at.closing);
    if |updates| == 1 then d else Update(d, p, updates[1], at.recount)
  }

  /** The job document after the `processing` update and the closing ones. */
  lemma FinishedAfter(db: Db, p: Path, res: Result<Value, Exc>, at: Commits)
    requires p in db
    ensures var (updates, o) := Verdict(res);
      var after := Record(Update(db, p, Processing, at.processing), p, updates, at)[p];
      && Finished(db[p], after, o)
      && (o != Failed ==> after["generated_post_ids"] == Stamped(Get(res.value.fields, "post_ids", List([])), at.closing))
  {
    var (updates, o) := Verdict(res);
    var d1 := Update(db, p, Processing, at.processing);
    var d2 := Update(d1, p, updates[0], at.closing);
    var started := db[p] + Resolve(Processing, at.processing);
    assert d1[p] == started;
    assert d2[p] == started + Resolve(updates[0], at.closing);
    if o == Failed {
      FailedDoc(db[p], started, if res.Err? then res.error else NoAttribute(res.value, "get"), at.closing);
    } else if o == Completed {
      CompletedDoc(db[p], started, res.value.fields, at.closing);
    } else {
      var d3 := Update(d2, p, updates[1], at.recount);
      assert d3[p] == d2[p] + Resolve(updates[1], at.recount);
      CompletedDoc(db[p], started, res.value.fields, at.closing);
      FailedDoc(db[p], d2[p], NoLen(res.value.fields["post_ids"]), at.recount);
    }
  }

  /** The document marked `processing`. */
  predicate Started(before: Doc, doc: Doc) {
    && (forall k :: k in before && k !in JobFields ==> k in doc && doc[k] == before[k])
    && (forall k :: k in doc ==> k in before || k in JobFields)
  }

  /** A `failed` update on a started document finishes it as failed, and
      keeps any completion it already records. */
  lemma FailedDoc(before: Doc, doc: Doc, e: Exc, commit: DateTime)
    requires Started(before, doc)
    ensures var after := doc + Resolve(FailedWith(e), commit);
      && Finished(before, after, Failed) && after["error"] == Str(Text(e))
      && ("completed_at" in doc ==> "completed_at" in after && after["completed_at"] == doc["completed_at"])
      && ("generated_post_ids" in doc ==> "generated_post_ids" in after && after["generated_post_ids"] == doc["generated_post_ids"])
  {
  }

  /** A `completed` update on a started document finishes it as completed. */
  lemma CompletedDoc(before: Doc, started: Doc, fields: map<string, Value>, commit: DateTime)
    requires Started(before, started) && "updated_at" in started && started["updated_at"].Time?
    ensures var after := started + Resolve(CompletedWith(fields), commit);
      && Finished(before, after, Completed)
      && after["generated_post_ids"] == Stamped(Get(fields, "post_ids", List([])), commit)
  {
  }

  /** What the `try` block yields for a job: building the input can raise,
      and so can the generator. */
  function Attempt(db1: Db, d: Doc, cid: string, jid: string, gen: Generator): (Db, Result<Value, Exc>) {
    match JobInput(d, cid)
    case Err(e) => (db1, Err(e))
    case Ok(input) => gen(db1, cid, jid, input)
  }

  /** The generation result for a job whose input could be built. */
  function Generated(db: Db, cid: string, jid: string, gen: Generator, at: Commits): (Db, Result<Value, Exc>)
    requires JobPath(cid, jid) in db && JobInput(db[JobPath(cid, jid)], cid).Ok?
  {
    gen(Update(db, JobPath(cid, jid), Processing, at.processing), cid, jid, JobInput(db[JobPath(cid, jid)], cid).value)
  }

  /** One job's turn: the job document is marked `processing`, the input
      is built and handed to the generator, and the outcome is recorded on
      the job. Only the job and unit posts change. */
  function ProcessJob(db: Db, cid: string, jid: string, gen: Generator, at: Commits): (r: (Db, Outcome))
    requires JobPath(cid, jid) in db && GenContract(gen)
    ensures ChangedOnly(db, r.0, {JobPath(cid, jid)}) && JobPath(cid, jid) in r.0
  {
    var path := JobPath(cid, jid);
    var db1 := Update(db, path, Processing, at.processing);
    var (db2, res) := Attempt(db1, db[path], cid, jid, gen);
    assert OnlyPostsChanged(db1, db2) by {
      if JobInput(db[path], cid).Ok? {
        assert OnlyPostsChanged(db1, gen(db1, cid, jid, JobInput(db[path], cid).value).0);
      }
    }
    JobIsNotPost(cid, jid);
    var (updates, o) := Verdict(res);
    (Record(db2, path, updates, at), o)
  }

  /** The job ends completed exactly when its input could be built and
      generation returned a dict whose `post_ids` has a length, and is
      counted twice when they have none; a job that got that far records
      the `post_ids`; any other job ends failed. */
  lemma ProcessJobOutcome(db: Db, cid: string, jid: string, gen: Generator, at: Commits)
    requires JobPath(cid, jid) in db && GenContract(gen)
    ensures var (d, o) := ProcessJob(db, cid, jid, gen, at);
      && Finished(db[JobPath(cid, jid)], d[JobPath(cid, jid)], o)
      && (o != Failed <==>
            (&& JobInput(db[JobPath(cid, jid)], cid).Ok?
             && Generated(db, cid, jid, gen, at).1.Ok? && Generated(db, cid, jid, gen, at).1.value.Dict?))
      && (o == Recounted <==>
            (&& JobInput(db[JobPath(cid, jid)], cid).Ok?
             && Generated(db, cid, jid, gen, at).1.Ok? && Generated(db, cid, jid, gen, at).1.value.Dict?
             && !Sized(Get(Generated(db, cid, jid, gen, at).1.value.fields, "post_ids", List([])))))
      && (o != Failed ==>
            d[JobPath(cid, jid)]["generated_post_ids"]
            == Stamped(Get(Generated(db, cid, jid, gen, at).1.value.fields, "post_ids", List([])), at.closing))
  {
    var path := JobPath(cid, jid);
    var db1 := Update(db, path, Processing, at.processing);
    JobIsNotPost(cid, jid);
    var (db2, res) := Attempt(db1, db[path], cid, jid, gen);
    assert OnlyPostsChanged(db1, db2) by {
      if JobInput(db[path], cid).Ok? {
        assert OnlyPostsChanged(db1, gen(db1, cid, jid, JobInput(db[path], cid).value).0);
      }
    }
    assert db2[path] == db1[path];
    FinishedAfter(db, path, res, at);
    RecordAt(db1, db2, path, Verdict(res).0, at);
  }

  /** The closing updates act on the job document alone. */
  lemma RecordAt(d1: Db, d2: Db, p: Path, updates: seq<Doc>, at: Commits)
    requires p in d1 && p in d2 && d2[p] == d1[p] && 1 <= |updates| <= 2
    ensures Record(d2, p, updates, at)[p] == Record(d1, p, updates, at)[p]
  {
  }

  /** As written every job fails; when its `post_data` is a mapping the
      recorded error is the coroutine's missing `get`. */
  lemma UnawaitedJobFails(db: Db, cid: string, jid: string, at: Commits)
    requires JobPath(cid, jid) in db
    ensures GenContract(Unawaited())
    ensures var (d, o) := ProcessJob(db, cid, jid, Unawaited(), at);
      && o == Failed
      && (JobInput(db[JobPath(cid, jid)], cid).Ok? ==>
            d[JobPath(cid, jid)]["error"] == Str(Text(NoAttribute(Object("coroutine"), "get"))))
  {
    UnawaitedKeepsContract();
    ProcessJobOutcome(db, cid, jid, Unawaited(), at);
  }

  /** With the call awaited, a job whose input could be built completes
      exactly when the batch succeeds, and records the batch's post ids. */
  lemma AwaitedJobCompletes(db: Db, cid: string, jid: string, w: World, at: Commits)
    requires JobPath(cid, jid) in db && JobInput(db[JobPath(cid, jid)], cid).Ok?
    ensures GenContract(Awaited(w))
    ensures var b := Batch(cid, JobInput(db[JobPath(cid, jid)], cid).value, w.oracle(cid, jid), w.env, w.clock(cid, jid));
      var g := GenerateScheduledPosts(Update(db, JobPath(cid, jid), Processing, at.processing), b);
      var (d, o) := ProcessJob(db, cid, jid, Awaited(w), at);
      && (o == Completed <==> g.1.Ok?)
      && o != Recounted
      && (o == Completed ==> d[JobPath(cid, jid)]["generated_post_ids"] == g.1.value.fields["post_ids"])
  {
    AwaitedKeepsContract(w);
    ProcessJobOutcome(db, cid, jid, Awaited(w), at);
    var b := Batch(cid, JobInput(db[JobPath(cid, jid)], cid).value, w.oracle(cid, jid), w.env, w.clock(cid, jid));
    var db1 := Update(db, JobPath(cid, jid), Processing, at.processing);
    if GenerateScheduledPosts(db1, b).1.Ok? {
      GenerateSuccess(db1, b, false);
    }
  }

  /** With the call awaited, a job without a `scheduled_date` that asks for
      a post of some channel fails: the batch gets `scheduled_time = None`. */
  lemma AwaitedUndatedJobFails(db: Db, cid: string, jid: string, w: World, ch: Channel, at: Commits)
    requires JobPath(cid, jid) in db && JobInput(db[JobPath(cid, jid)], cid).Ok?
    requires "scheduled_date" !in db[JobPath(cid, jid)]
    requires var b := Batch(cid, JobInput(db[JobPath(cid, jid)], cid).value, w.oracle(cid, jid), w.env, w.clock(cid, jid));
      CountOf(b, ch).Ok? && CountOf(b, ch).value > 0
    ensures GenContract(Awaited(w))
    ensures ProcessJob(db, cid, jid, Awaited(w), at).1 == Failed
  {
    AwaitedJobCompletes(db, cid, jid, w, at);
    var b := Batch(cid, JobInput(db[JobPath(cid, jid)], cid).value, w.oracle(cid, jid), w.env, w.clock(cid, jid));
    UnscheduledBatchFails(Update(db, JobPath(cid, jid), Processing, at.processing), b, false, ch);
  }

  /** A generator whose successful answers carry `post_ids` with a length,
      when they carry any. */
  ghost predicate SizedIds(gen: Generator) {
    forall db: Db, cid: string, jid: string, input: map<string, Value> ::
      var res := gen(db, cid, jid, input).1;
      res.Ok? && res.value.Dict? ==> Sized(Get(res.value.fields, "post_ids", List([])))
  }

  /** Both the coroutine and the awaited batch qualify: a successful batch
      lists its post ids. */
  lemma GeneratorsSized(w: World)
    ensures SizedIds(Unawaited()) && SizedIds(Awaited(w))
  {
    forall db: Db, cid: string, jid: string, input: map<string, Value>
      | Awaited(w)(db, cid, jid, input).1.Ok?
      ensures var v := Awaited(w)(db, cid, jid, input).1.value;
        v.Dict? && Sized(Get(v.fields, "post_ids", List([])))
    {
      GenerateSuccess(db, Batch(cid, input, w.oracle(cid, jid), w.env, w.clock(cid, jid)), false);
    }
  }

  /** A job whose generator answers with a dict whose `post_ids` has no
      length is completed, then failed with the `len()` error, and counted
      both ways. */
  lemma UnsizedJobRecounted(db: Db, cid: string, jid: string, at: Commits, n: int)
    requires JobPath(cid, jid) in db && JobInput(db[JobPath(cid, jid)], cid).Ok?
    ensures GenContract(Answers(Dict(map["post_ids" := Int(n)])))
    ensures var r := ProcessJob(db, cid, jid, Answers(Dict(map["post_ids" := Int(n)])), at);
      && r.1 == Recounted && Count(r.1) == Tally(1, 1, 0)
      && r.0[JobPath(cid, jid)]["status"] == Str("failed")
      && r.0[JobPath(cid, jid)]["error"] == Str("object of type 'int' has no len()")
      && r.0[JobPath(cid, jid)]["generated_post_ids"] == Int(n)
  {
    var ans := Dict(map["post_ids" := Int(n)]);
    var gen := Answers(ans);
    var p := JobPath(cid, jid);
    var d1 := Update(db, p, Processing, at.processing);
    assert ProcessJob(db, cid, jid, gen, at) == (Record(d1, p, Verdict(Ok(ans)).0, at), Recounted) by {
      assert Attempt(d1, db[p], cid, jid, gen) == (d1, Ok(ans));
    }
    var updates := Verdict(Ok(ans)).0;
    assert updates == [CompletedWith(ans.fields), FailedWith(NoLen(Int(n)))];
    RecordTwo(db, p, updates, at);
    RecountedDoc(db[p], n, at);
  }

  /** The job document once an integer `post_ids` has been recorded. */
  lemma RecountedDoc(before: Doc, n: int, at: Commits)
    ensures var after := before + Resolve(Processing, at.processing)
        + Resolve(CompletedWith(map["post_ids" := Int(n)]), at.closing)
        + Resolve(FailedWith(NoLen(Int(n))), at.recount);
      && after["status"] == Str("failed")
      && after["error"] == Str("object of type 'int' has no len()")
      && after["generated_post_ids"] == Int(n)
  {
    var mid := before + Resolve(Processing, at.processing) + Resolve(CompletedWith(map["post_ids" := Int(n)]), at.closing);
    var last := Resolve(FailedWith(NoLen(Int(n))), at.recount);
    assert "generated_post_ids" in mid && mid["generated_post_ids"] == Int(n);
    assert "generated_post_ids" !in last;
    IntHasNoLen(n);
  }

  /** Two closing updates land on the job document one after the other. */
  lemma RecordTwo(db: Db, p: Path, updates: seq<Doc>, at: Commits)
    requires p in db && |updates| == 2
    ensures Record(Update(db, p, Processing, at.processing), p, updates, at)[p]
      == db[p] + Resolve(Processing, at.processing) + Resolve(updates[0], at.closing) + Resolve(updates[1], at.recount)
  {
  }

  lemma IntHasNoLen(n: int)
    ensures Text(NoLen(Int(n))) == "object of type 'int' has no len()"
  {
  }

  /** A generator that writes nothing and always answers `v`. */
  function Answers(v: Value): (gen: Generator)
    ensures GenContract(gen)
  {
    (db: Db, cid: string, jid: string, input: map<string, Value>) => (db, Ok(v))
  }

  /** The counters of a run; `skipped_count` is never incremented. */
  datatype Tally = Tally(processed: nat, failed: nat, skipped: nat)

  function Plus(a: Tally, b: Tally): Tally {
    Tally(a.processed + b.processed, a.failed + b.failed, a.skipped + b.skipped)
  }

  /** A job's turn counted: a recounted job adds to both counters. */
  function Count(o: Outcome): Tally {
    Tally(if o == Failed then 0 else 1, if o == Completed then 0 else 1, 0)
  }

  predicate Distinct(xs: seq<string>) {
    forall i, j :: 0 <= i < j < |xs| ==> xs[i] != xs[j]
  }

  /** The documents of a company's listed jobs. */
  function JobSet(cid: string, jids: seq<string>): set<Path> {
    set i | 0 <= i < |jids| :: JobPath(cid, jids[i])
  }

  predicate JobsPresent(db: Db, cid: string, jids: seq<string>) {
    forall i :: 0 <= i < |jids| ==> JobPath(cid, jids[i]) in db
  }

  lemma PresentGrows(db: Db, d: Db, cid: string, jids: seq<string>)
    requires JobsPresent(db, cid, jids) && db.Keys <= d.Keys
    ensures JobsPresent(d, cid, jids)
  {
  }

  lemma ChangedOnlyTrans(a: Db, b: Db, c: Db, t1: set<Path>, t2: set<Path>)
    requires ChangedOnly(a, b, t1) && ChangedOnly(b, c, t2)
    ensures ChangedOnly(a, c, t1 + t2)
  {
  }

  lemma JobSetLast(cid: string, jids: seq<string>)
    requires jids != []
    ensures JobSet(cid, jids) == JobSet(cid, jids[..|jids| - 1]) + {JobPath(cid, jids[|jids| - 1])}
  {
    var front := jids[..|jids| - 1];
    forall q | q in JobSet(cid, front)
      ensures q in JobSet(cid, jids)
    {
      var i :| 0 <= i < |front| && q == JobPath(cid, front[i]);
      assert front[i] == jids[i];
    }
  }

  /** A job document of company `cid`. */
  lemma JobSetShape(cid: string, jids: seq<string>, q: Path)
    ensures q in JobSet(cid, jids) ==>
      (&& |q| == 4 && q[0] == "scheduled_posts" && q[1] == cid && q[2] == "posts"
       && InCollection(q, JobsOf(cid)) && !IsPostDoc(q))
  {
    if q in JobSet(cid, jids) {
      var i :| 0 <= i < |jids| && q == JobPath(cid, jids[i]);
      JobIsNotPost(cid, jids[i]);
    }
  }

  /** A job's turn as the loop sees it: the store before and the job id,
      the store after and how the job is counted. */
  type Turn = (Db, string) -> (Db, Outcome)

  /** A job document after its turn, whichever way it went. */
  predicate Done(before: Doc, after: Doc) {
    Finished(before, after, Completed) || Finished(before, after, Failed) || Finished(before, after, Recounted)
  }

  /** What a turn for company `cid` promises when the job exists. */
  predicate TurnOk(d: Db, r: (Db, Outcome), cid: string, jid: string) {
    && JobPath(cid, jid) in d
    && ChangedOnly(d, r.0, {JobPath(cid, jid)})
    && JobPath(cid, jid) in r.0
    && Finished(d[JobPath(cid, jid)], r.0[JobPath(cid, jid)], r.1)
  }

  ghost predicate TurnContract(turn: Turn, cid: string) {
    forall d: Db, jid: string :: JobPath(cid, jid) in d ==> TurnOk(d, turn(d, jid), cid, jid)
  }

  /** The loop body for company `cid`. The job always exists, since the
      query listed it and nothing deletes jobs; the fallback only makes
      the step total. */
  function JobTurn(cid: string, gen: Generator, clock: Clock): Turn
    requires GenContract(gen)
  {
    (d: Db, jid: string) => if JobPath(cid, jid) in d then ProcessJob(d, cid, jid, gen, clock(cid, jid)) else (d, Failed)
  }

  /** The commit times of each job's updates. */
  type Clock = (string, string) -> Commits

  lemma JobTurnContract(cid: string, gen: Generator, clock: Clock)
    requires GenContract(gen)
    ensures TurnContract(JobTurn(cid, gen, clock), cid)
  {
    forall d: Db, jid: string | JobPath(cid, jid) in d
      ensures TurnOk(d, JobTurn(cid, gen, clock)(d, jid), cid, jid)
    {
      ProcessJobOutcome(d, cid, jid, gen, clock(cid, jid));
    }
  }

  /** A loop body that never recounts a job. */
  ghost predicate NoRecount(turn: Turn) {
    forall d: Db, jid: string :: turn(d, jid).1 != Recounted
  }

  /** A generator whose answers carry sized `post_ids` never makes a job
      be recounted. */
  lemma JobTurnNoRecount(cid: string, gen: Generator, clock: Clock)
    requires GenContract(gen) && SizedIds(gen)
    ensures NoRecount(JobTurn(cid, gen, clock))
  {
    forall d: Db, jid: string | JobPath(cid, jid) in d
      ensures JobTurn(cid, gen, clock)(d, jid).1 != Recounted
    {
      ProcessJobOutcome(d, cid, jid, gen, clock(cid, jid));
      if JobInput(d[JobPath(cid, jid)], cid).Ok? {
        var at := clock(cid, jid);
        var d1 := Update(d, JobPath(cid, jid), Processing, at.processing);
        var res := gen(d1, cid, jid, JobInput(d[JobPath(cid, jid)], cid).value).1;
        assert res.Ok? && res.value.Dict? ==> Sized(Get(res.value.fields, "post_ids", List([])));
      }
    }
  }

  /** One company's listed jobs, in order; a failure is counted and the
      loop goes on, so every job is counted, twice when it is recounted. */
  function RunJobs(db: Db, jids: seq<string>, turn: Turn): (r: (Db, Tally))
    ensures |jids| <= r.1.processed + r.1.failed <= 2 * |jids| && r.1.skipped == 0
    ensures NoRecount(turn) ==> r.1.processed + r.1.failed == |jids|
    decreases |jids|
  {
    if jids == [] then (db, Tally(0, 0, 0))
    else
      var n := |jids| - 1;
      var (d, t) := RunJobs(db, jids[..n], turn);
      var (d2, o) := turn(d, jids[n]);
      (d2, Plus(t, Count(o)))
  }

  /** One company's jobs as the loop runs them. */
  method RunJobsLoop(db: Db, jids: seq<string>, turn: Turn) returns (d: Db, t: Tally)
    ensures (d, t) == RunJobs(db, jids, turn)
  {
    d, t := db, Tally(0, 0, 0);
    var k := 0;
    while k < |jids|
      invariant 0 <= k <= |jids|
      invariant (d, t) == RunJobs(db, jids[..k], turn)
    {
      assert jids[..k + 1][..k] == jids[..k];
      var r := turn(d, jids[k]);
      d, t := r.0, Plus(t, Count(r.1));
      k := k + 1;
    }
    assert jids[..k] == jids;
  }

  /** The last job's turn comes after the others'. */
  lemma RunJobsLast(db: Db, jids: seq<string>, turn: Turn)
    requires jids != []
    ensures RunJobs(db, jids, turn).0 == turn(RunJobs(db, jids[..|jids| - 1], turn).0, jids[|jids| - 1]).0
  {
  }

  /** Only the listed jobs and unit posts change. */
  lemma {:induction false} RunJobsChanges(db: Db, cid: string, jids: seq<string>, turn: Turn)
    requires JobsPresent(db, cid, jids) && TurnContract(turn, cid)
    ensures ChangedOnly(db, RunJobs(db, jids, turn).0, JobSet(cid, jids))
    decreases |jids|
  {
    if jids != [] {
      var n := |jids| - 1;
      assert JobsPresent(db, cid, jids[..n]) by {
        forall i | 0 <= i < n ensures jids[..n][i] == jids[i] {}
      }
      RunJobsChanges(db, cid, jids[..n], turn);
      var d := RunJobs(db, jids[..n], turn).0;
      assert TurnOk(d, turn(d, jids[n]), cid, jids[n]);
      ChangedOnlyTrans(db, d, turn(d, jids[n]).0, JobSet(cid, jids[..n]), {JobPath(cid, jids[n])});
      JobSetLast(cid, jids);
    }
  }

  /** Every document in `jobs` went from `db` to `d` through its turn. */
  predicate AllDone(db: Db, d: Db, jobs: set<Path>) {
    forall q :: q in jobs ==> q in db && q in d && Done(db[q], d[q])
  }

  /** With distinct ids, the last job is not among the earlier ones. */
  lemma LastIsNew(cid: string, jids: seq<string>)
    requires jids != [] && Distinct(jids)
    ensures JobPath(cid, jids[|jids| - 1]) !in JobSet(cid, jids[..|jids| - 1])
  {
    var n := |jids| - 1;
    forall i | 0 <= i < n ensures JobPath(cid, jids[..n][i]) != JobPath(cid, jids[n]) {
      assert jids[..n][i] == jids[i] && JobPath(cid, jids[..n][i])[3] == jids[i];
    }
  }

  /** The earlier jobs stay done through a later job's turn, and the later
      job becomes done. */
  lemma DoneThroughTurn(db: Db, d: Db, r: (Db, Outcome), done: set<Path>, cid: string, jid: string)
    requires ChangedOnly(db, d, done) && AllDone(db, d, done)
    requires forall q :: q in done ==> !IsPostDoc(q)
    requires JobPath(cid, jid) in db && JobPath(cid, jid) !in done
    requires TurnOk(d, r, cid, jid)
    ensures AllDone(db, r.0, done + {JobPath(cid, jid)})
  {
    JobIsNotPost(cid, jid);
  }

  /** The turn of an existing job keeps its promise. */
  lemma TurnAt(turn: Turn, cid: string, d: Db, jid: string)
    requires TurnContract(turn, cid) && JobPath(cid, jid) in d
    ensures TurnOk(d, turn(d, jid), cid, jid)
  {
  }

  /** From the earlier jobs done to all jobs done. */
  lemma FinishesStep(db: Db, cid: string, jids: seq<string>, turn: Turn)
    requires jids != [] && Distinct(jids)
    requires var front := jids[..|jids| - 1];
      var d := RunJobs(db, front, turn).0;
      && AllDone(db, d, JobSet(cid, front)) && ChangedOnly(db, d, JobSet(cid, front))
      && JobPath(cid, jids[|jids| - 1]) in db
      && TurnOk(d, turn(d, jids[|jids| - 1]), cid, jids[|jids| - 1])
    ensures AllDone(db, RunJobs(db, jids, turn).0, JobSet(cid, jids))
  {
    var n := |jids| - 1;
    var front := jids[..n];
    var d := RunJobs(db, front, turn).0;
    LastIsNew(cid, jids);
    forall q | q in JobSet(cid, front) ensures !IsPostDoc(q) {
      JobSetShape(cid, front, q);
    }
    DoneThroughTurn(db, d, turn(d, jids[n]), JobSet(cid, front), cid, jids[n]);
    JobSetLast(cid, jids);
    RunJobsLast(db, jids, turn);
  }

  /** Every listed job of the company ends completed or failed. */
  lemma {:induction false} RunJobsFinishes(db: Db, cid: string, jids: seq<string>, turn: Turn)
    requires JobsPresent(db, cid, jids) && TurnContract(turn, cid) && Distinct(jids)
    ensures AllDone(db, RunJobs(db, jids, turn).0, JobSet(cid, jids))
    decreases |jids|
  {
    if jids == [] {
      assert JobSet(cid, jids) == {};
    } else {
      var n := |jids| - 1;
      var front := jids[..n];
      assert JobsPresent(db, cid, front) && Distinct(front) by {
        forall i | 0 <= i < n ensures front[i] == jids[i] {}
      }
      RunJobsFinishes(db, cid, front, turn);
      RunJobsChanges(db, cid, front, turn);
      var d := RunJobs(db, front, turn).0;
      TurnAt(turn, cid, d, jids[n]);
      FinishesStep(db, cid, jids, turn);
    }
  }

  /** The documents of every listed company's listed jobs. */
  function AllJobs(companies: seq<string>, dueOf: string -> seq<string>): set<Path>
    decreases |companies|
  {
    if companies == [] then {}
    else AllJobs(companies[..|companies| - 1], dueOf) + JobSet(companies[|companies| - 1], dueOf(companies[|companies| - 1]))
  }

  /** The number of listed jobs. */
  function TotalJobs(companies: seq<string>, dueOf: string -> seq<string>): nat
    decreases |companies|
  {
    if companies == [] then 0
    else TotalJobs(companies[..|companies| - 1], dueOf) + |dueOf(companies[|companies| - 1])|
  }

  predicate AllPresent(db: Db, companies: seq<string>, dueOf: string -> seq<string>) {
    forall i :: 0 <= i < |companies| ==> JobsPresent(db, companies[i], dueOf(companies[i]))
  }

  lemma PresentPrefix(db: Db, companies: seq<string>, dueOf: string -> seq<string>, k: nat)
    requires k <= |companies| && AllPresent(db, companies, dueOf)
    ensures AllPresent(db, companies[..k], dueOf)
  {
    forall i | 0 <= i < k ensures companies[..k][i] == companies[i] {}
  }

  /** Every company in order, each with its listed jobs. */
  function RunCompanies(db: Db, companies: seq<string>, dueOf: string -> seq<string>, turns: string -> Turn): (r: (Db, Tally))
    ensures TotalJobs(companies, dueOf) <= r.1.processed + r.1.failed <= 2 * TotalJobs(companies, dueOf)
    ensures r.1.skipped == 0
    ensures NoRecounts(turns) ==> r.1.processed + r.1.failed == TotalJobs(companies, dueOf)
    decreases |companies|
  {
    if companies == [] then (db, Tally(0, 0, 0))
    else
      var n := |companies| - 1;
      var (d, t) := RunCompanies(db, companies[..n], dueOf, turns);
      var (d2, t2) := RunJobs(d, dueOf(companies[n]), turns(companies[n]));
      (d2, Plus(t, t2))
  }

  /** The run as the loops perform it. */
  method RunCompaniesLoop(db: Db, companies: seq<string>, dueOf: string -> seq<string>, turns: string -> Turn)
    returns (d: Db, t: Tally)
    ensures (d, t) == RunCompanies(db, companies, dueOf, turns)
  {
    d, t := db, Tally(0, 0, 0);
    var i := 0;
    while i < |companies|
      invariant 0 <= i <= |companies|
      invariant (d, t) == RunCompanies(db, companies[..i], dueOf, turns)
    {
      assert companies[..i + 1][..i] == companies[..i];
      var d1, t1 := RunJobsLoop(d, dueOf(companies[i]), turns(companies[i]));
      d, t := d1, Plus(t, t1);
      i := i + 1;
    }
    assert companies[..i] == companies;
  }

  ghost predicate TurnsContract(turns: string -> Turn) {
    forall c :: TurnContract(turns(c), c)
  }

  ghost predicate NoRecounts(turns: string -> Turn) {
    forall c :: NoRecount(turns(c))
  }

  /** Only the listed jobs and unit posts change. */
  lemma {:induction false} RunCompaniesChanges(db: Db, companies: seq<string>, dueOf: string -> seq<string>, turns: string -> Turn)
    requires AllPresent(db, companies, dueOf) && TurnsContract(turns)
    ensures ChangedOnly(db, RunCompanies(db, companies, dueOf, turns).0, AllJobs(companies, dueOf))
    decreases |companies|
  {
    if companies != [] {
      var n := |companies| - 1;
      var c := companies[n];
      PresentPrefix(db, companies, dueOf, n);
      RunCompaniesChanges(db, companies[..n], dueOf, turns);
      var d := RunCompanies(db, companies[..n], dueOf, turns).0;
      PresentGrows(db, d, c, dueOf(c));
      assert TurnContract(turns(c), c);
      RunJobsChanges(d, c, dueOf(c), turns(c));
      ChangedOnlyTrans(db, d, RunJobs(d, dueOf(c), turns(c)).0, AllJobs(companies[..n], dueOf), JobSet(c, dueOf(c)));
    }
  }

  /** A listed job belongs to a listed company. */
  lemma {:induction false} AllJobsShape(companies: seq<string>, dueOf: string -> seq<string>, q: Path)
    ensures q in AllJobs(companies, dueOf) ==>
      (&& |q| == 4 && q[0] == "scheduled_posts" && q[2] == "posts" && !IsPostDoc(q)
       && q[1] in companies && q in JobSet(q[1], dueOf(q[1])))
    decreases |companies|
  {
    if companies != [] {
      var n := |companies| - 1;
      JobSetShape(companies[n], dueOf(companies[n]), q);
      AllJobsShape(companies[..n], dueOf, q);
      if q in AllJobs(companies[..n], dueOf) {
        assert q[1] in companies[..n];
      }
    }
  }

  lemma {:induction false} JobSetInAllJobs(companies: seq<string>, dueOf: string -> seq<string>, i: nat)
    requires i < |companies|
    ensures JobSet(companies[i], dueOf(companies[i])) <= AllJobs(companies, dueOf)
    decreases |companies|
  {
    var n := |companies| - 1;
    if i < n {
      JobSetInAllJobs(companies[..n], dueOf, i);
      assert companies[..n][i] == companies[i];
    }
  }

  predicate DistinctJobs(companies: seq<string>, dueOf: string -> seq<string>) {
    forall i :: 0 <= i < |companies| ==> Distinct(dueOf(companies[i]))
  }

  /** Every listed job ends completed or failed. */
  lemma {:induction false} RunCompaniesFinishes(db: Db, companies: seq<string>, dueOf: string -> seq<string>, turns: string -> Turn)
    requires AllPresent(db, companies, dueOf) && TurnsContract(turns)
    requires Distinct(companies) && DistinctJobs(companies, dueOf)
    ensures AllDone(db, RunCompanies(db, companies, dueOf, turns).0, AllJobs(companies, dueOf))
    decreases |companies|
  {
    if companies != [] {
      var n := |companies| - 1;
      var front, c := companies[..n], companies[n];
      PresentPrefix(db, companies, dueOf, n);
      assert Distinct(front) && DistinctJobs(front, dueOf) by {
        forall i | 0 <= i < n ensures front[i] == companies[i] {}
      }
      RunCompaniesFinishes(db, front, dueOf, turns);
      RunCompaniesChanges(db, front, dueOf, turns);
      var d := RunCompanies(db, front, dueOf, turns).0;
      PresentGrows(db, d, c, dueOf(c));
      assert TurnContract(turns(c), c);
      RunJobsFinishes(d, c, dueOf(c), turns(c));
      RunJobsChanges(d, c, dueOf(c), turns(c));
      var d2 := RunJobs(d, dueOf(c), turns(c)).0;
      assert c !in front by {
        forall i | 0 <= i < n ensures front[i] != c {
          assert front[i] == companies[i];
        }
      }
      forall q | q in AllJobs(companies, dueOf)
        ensures q in db && q in d2 && Done(db[q], d2[q])
      {
        JobSetShape(c, dueOf(c), q);
        AllJobsShape(front, dueOf, q);
      }
    }
  }

  /** The company documents `collection("scheduled_posts").stream()`
      yields: each once, and all of them. */
  predicate CompanyListing(db: Db, companies: seq<string>) {
    && Distinct(companies)
    && (forall i :: 0 <= i < |companies| ==> Child(JobsRoot, companies[i]) in db)
    && (forall q :: q in db && InCollection(q, JobsRoot) ==> q[1] in companies)
  }

  /** The jobs the query returns for company `cid`: each once, and
      exactly the due ones. */
  predicate DueListing(db: Db, now: DateTime, cid: string, jids: seq<string>) {
    && Distinct(jids)
    && JobsPresent(db, cid, jids)
    && (forall i :: 0 <= i < |jids| ==> Due(db[JobPath(cid, jids[i])], now))
    && (forall q :: q in db && InCollection(q, JobsOf(cid)) && Due(db[q], now) ==> q in JobSet(cid, jids))
  }

  predicate Listed(db: Db, now: DateTime, companies: seq<string>, dueOf: string -> seq<string>) {
    && CompanyListing(db, companies)
    && (forall i :: 0 <= i < |companies| ==> DueListing(db, now, companies[i], dueOf(companies[i])))
  }

  /** A due job of a company that has a document under `scheduled_posts`
      (a job whose company document does not exist is never visited). */
  predicate DueJob(db: Db, now: DateTime, q: Path) {
    && q in db && |q| == 4 && q[0] == "scheduled_posts" && q[2] == "posts"
    && Child(JobsRoot, q[1]) in db && Due(db[q], now)
  }

  function DueJobs(db: Db, now: DateTime): set<Path> {
    set q | q in db && DueJob(db, now, q)
  }

  /** The listed jobs are exactly the due jobs. */
  lemma ListedAreDue(db: Db, now: DateTime, companies: seq<string>, dueOf: string -> seq<string>)
    requires Listed(db, now, companies, dueOf)
    ensures AllJobs(companies, dueOf) == DueJobs(db, now)
  {
    forall q | q in AllJobs(companies, dueOf)
      ensures DueJob(db, now, q)
    {
      AllJobsShape(companies, dueOf, q);
      var c := q[1];
      var i :| 0 <= i < |companies| && companies[i] == c;
      assert DueListing(db, now, c, dueOf(c));
      var j :| 0 <= j < |dueOf(c)| && q == JobPath(c, dueOf(c)[j]);
    }
    forall q | q in DueJobs(db, now)
      ensures q in AllJobs(companies, dueOf)
    {
      var c := q[1];
      assert InCollection(Child(JobsRoot, c), JobsRoot);
      var i :| 0 <= i < |companies| && companies[i] == c;
      assert DueListing(db, now, c, dueOf(c));
      assert q[..3] == JobsOf(c);
      JobSetInAllJobs(companies, dueOf, i);
    }
  }

  /** With distinct ids a company's listed jobs are as many documents. */
  lemma {:induction false} JobSetSize(cid: string, jids: seq<string>)
    requires Distinct(jids)
    ensures |JobSet(cid, jids)| == |jids|
    decreases |jids|
  {
    if jids == [] {
      assert JobSet(cid, jids) == {};
    } else {
      var n := |jids| - 1;
      assert Distinct(jids[..n]) by {
        forall i | 0 <= i < n ensures jids[..n][i] == jids[i] {}
      }
      JobSetSize(cid, jids[..n]);
      LastIsNew(cid, jids);
      JobSetLast(cid, jids);
    }
  }

  /** With distinct companies and ids, the run counts every listed job
      document once. */
  lemma {:induction false} AllJobsSize(companies: seq<string>, dueOf: string -> seq<string>)
    requires Distinct(companies) && DistinctJobs(companies, dueOf)
    ensures |AllJobs(companies, dueOf)| == TotalJobs(companies, dueOf)
    decreases |companies|
  {
    if companies != [] {
      var n := |companies| - 1;
      var front, c := companies[..n], companies[n];
      assert Distinct(front) && DistinctJobs(front, dueOf) by {
        forall i | 0 <= i < n ensures front[i] == companies[i] {}
      }
      AllJobsSize(front, dueOf);
      JobSetSize(c, dueOf(c));
      assert c !in front by {
        forall i | 0 <= i < n ensures front[i] != c {
          assert front[i] == companies[i];
        }
      }
      forall q | q in JobSet(c, dueOf(c)) ensures q !in AllJobs(front, dueOf) {
        JobSetShape(c, dueOf(c), q);
        AllJobsShape(front, dueOf, q);
      }
      assert AllJobs(front, dueOf) !! JobSet(c, dueOf(c));
    }
  }

  /** Each company's loop body. */
  function JobTurns(gen: Generator, clock: Clock): string -> Turn
    requires GenContract(gen)
  {
    (c: string) => JobTurn(c, gen, clock)
  }

  lemma JobTurnsContract(gen: Generator, clock: Clock)
    requires GenContract(gen)
    ensures TurnsContract(JobTurns(gen, clock))
    ensures SizedIds(gen) ==> NoRecounts(JobTurns(gen, clock))
  {
    forall c ensures TurnContract(JobTurns(gen, clock)(c), c) {
      JobTurnContract(c, gen, clock);
    }
    if SizedIds(gen) {
      forall c ensures NoRecount(JobTurns(gen, clock)(c)) {
        JobTurnNoRecount(c, gen, clock);
      }
    }
  }

  /** `process_due_posts` over the listed companies and their due jobs,
      each job's updates committing at the times `clock` gives: every due
      job ends `completed` or `failed` and is counted at least once
      (exactly once when the generator's answers carry sized `post_ids`),
      nothing is skipped, and nothing but the due jobs and unit posts
      changes. */
  method ProcessDuePosts(db: Db, now: DateTime, companies: seq<string>, dueOf: string -> seq<string>, gen: Generator, clock: Clock)
    returns (d: Db, t: Tally)
    requires GenContract(gen) && Listed(db, now, companies, dueOf)
    ensures (d, t) == RunCompanies(db, companies, dueOf, JobTurns(gen, clock))
    ensures t.skipped == 0 && |DueJobs(db, now)| <= t.processed + t.failed <= 2 * |DueJobs(db, now)|
    ensures SizedIds(gen) ==> t.processed + t.failed == |DueJobs(db, now)|
    ensures db.Keys <= d.Keys && (forall q :: q in d && q !in db ==> IsPostDoc(q))
    ensures forall q :: q in db && !IsPostDoc(q) && q !in DueJobs(db, now) ==> d[q] == db[q]
    ensures forall q :: q in DueJobs(db, now) ==> q in d && Done(db[q], d[q])
  {
    d, t := RunCompaniesLoop(db, companies, dueOf, JobTurns(gen, clock));
    JobTurnsContract(gen, clock);
    assert AllPresent(db, companies, dueOf) && DistinctJobs(companies, dueOf);
    RunCompaniesChanges(db, companies, dueOf, JobTurns(gen, clock));
    RunCompaniesFinishes(db, companies, dueOf, JobTurns(gen, clock));
    ListedAreDue(db, now, companies, dueOf);
    AllJobsSize(companies, dueOf);
  }

  /** A loop body that never completes a job. */
  ghost predicate NeverCompletes(turns: string -> Turn) {
    forall c, d: Db, jid: string :: turns(c)(d, jid).1 == Failed
  }

  lemma {:induction false} NothingCompletedJobs(db: Db, jids: seq<string>, turns: string -> Turn, c: string)
    requires NeverCompletes(turns)
    ensures RunJobs(db, jids, turns(c)).1.processed == 0
    decreases |jids|
  {
    if jids != [] {
      var n := |jids| - 1;
      NothingCompletedJobs(db, jids[..n], turns, c);
      assert turns(c)(RunJobs(db, jids[..n], turns(c)).0, jids[n]).1 == Failed;
    }
  }

  lemma {:induction false} NothingCompleted(db: Db, companies: seq<string>, dueOf: string -> seq<string>, turns: string -> Turn)
    requires NeverCompletes(turns)
    ensures RunCompanies(db, companies, dueOf, turns).1.processed == 0
    decreases |companies|
  {
    if companies != [] {
      var n := |companies| - 1;
      NothingCompleted(db, companies[..n], dueOf, turns);
      NothingCompletedJobs(RunCompanies(db, companies[..n], dueOf, turns).0, dueOf(companies[n]), turns, companies[n]);
    }
  }

  /** As written no job ever completes: every due job is counted as failed. */
  lemma UnawaitedRunCompletesNothing(db: Db, companies: seq<string>, dueOf: string -> seq<string>, clock: Clock)
    ensures GenContract(Unawaited())
    ensures var t := RunCompanies(db, companies, dueOf, JobTurns(Unawaited(), clock)).1;
      t.processed == 0 && t.failed == TotalJobs(companies, dueOf)
  {
    UnawaitedKeepsContract();
    var turns := JobTurns(Unawaited(), clock);
    forall c, d: Db, jid: string ensures turns(c)(d, jid).1 == Failed {
      if JobPath(c, jid) in d {
        ProcessJobOutcome(d, c, jid, Unawaited(), clock(c, jid));
      }
    }
    assert NoRecounts(turns) by {
      forall c ensures NoRecount(turns(c)) {
        forall d: Db, jid: string ensures turns(c)(d, jid).1 != Recounted {
          assert turns(c)(d, jid).1 == Failed;
        }
      }
    }
    NothingCompleted(db, companies, dueOf, turns);
  }
}
