/** `generate_scheduled_posts`: for each channel in turn (Instagram,
    Facebook, LinkedIn) it runs the requested number of units, each of which
    asks the planner route for a post, the image route for a picture and
    adds the post document. The first failing unit ends the run with a 500;
    documents added by earlier units stay. */
module ContentService {
  import opened Values
  import opened Channels
  import opened Store
  import opened ContentModel
  import opened GptService
  import opened PlannerRoutes
  import opened ContentRoutes

  /** What the outside world contributes to one unit: the model's reply to
      the planner's prompt, the image controller, and the id Firestore's
      `add` picks. */
  datatype UnitOracle = UnitOracle(
    completion: Completion,
    controller: map<string, Value> -> Value,
    postId: string)

  /** One call of `generate_scheduled_posts(company_id, posts_data)`.
      `oracle(ch, k)` serves unit `k` of channel `ch`; `now` is the clock. */
  datatype Batch = Batch(
    cid: string,
    postsData: map<string, Value>,
    oracle: (Channel, nat) -> UnitOracle,
    env: Env,
    now: DateTime)

  /** The state between units: the store, the ids added on the current
      channel, and whether the function-local `from models.content_model
      import ContentRequest` has run yet. */
  datatype Progress = Progress(db: Db, ids: seq<string>, bound: bool)

  /** A run either goes on or has stopped with the store as it then was. */
  datatype Run = Running(p: Progress) | Halted(db: Db, error: Exc)

  /** Where unit posts are added. */
  function PostPath(ch: Channel, cid: string, id: string): Path {
    Child(PostsOf(ch, cid), id)
  }

  /** `range(v)` over a `posts_data` count: an `int` (a negative one runs
      nothing) or a `bool`; anything else raises `TypeError`. */
  function RangeCount(v: Value): (r: Result<nat, Exc>)
    ensures v.Int? ==> r == Ok(if v.i < 0 then 0 else v.i)
    ensures r.Ok? <==> v.Int? || v.Bool?
  {
    if v.Int? then Ok(if v.i < 0 then 0 else v.i)
    else if v.Bool? then Ok(if v.b then 1 else 0)
    else Result<nat, Exc>.Err(TypeError("'" + TypeName(v) + "' object cannot be interpreted as an integer"))
  }

  /** The `posts_data` key holding a channel's count. */
  function CountKey(ch: Channel): string {
    Name(ch) + "_post_count"
  }

  /** A channel's count, 0 when the key is missing. */
  function CountOf(b: Batch, ch: Channel): Result<nat, Exc> {
    RangeCount(Get(b.postsData, CountKey(ch), Int(0)))
  }

  /** The fields of a unit's document. */
  const PostFieldNames: set<string> := {"company_id", "channel", "image_url", "caption", "hashtags",
    "scheduled_time", "scheduled_datetime", "overlay_text", "created_at", "updated_at"}

  /** The document a unit adds. */
  function UnitPost(ch: Channel, b: Batch, planner: Doc, url: Value, st: string, dt: DateTime): (d: Doc)
    ensures d.Keys == PostFieldNames
    ensures d["channel"] == Str(Name(ch)) && d["company_id"] == Str(b.cid)
    ensures d["scheduled_time"] == Str(st) && d["scheduled_datetime"] == Time(dt)
    ensures d["image_url"] == url
    ensures d["caption"] == Get(planner, "caption", Str(""))
      && d["hashtags"] == Get(planner, "hashtags", List([]))
      && d["overlay_text"] == Get(planner, "overlay_text", Str(""))
    ensures d["created_at"] == Time(b.now) && d["updated_at"] == Time(b.now)
  {
    map[
      "company_id" := Str(b.cid),
      "channel" := Str(Name(ch)),
      "image_url" := url,
      "caption" := Get(planner, "caption", Str("")),
      "hashtags" := Get(planner, "hashtags", List([])),
      "scheduled_time" := Str(st),
      "scheduled_datetime" := Time(dt),
      "overlay_text" := Get(planner, "overlay_text", Str("")),
      "created_at" := Time(b.now),
      "updated_at" := Time(b.now)]
  }

  /** What a unit does with the planner's answer: check it, bind or use
      `ContentRequest`, and ask for an image. The result is the image URL.
      `bound` tells whether `ContentRequest` is bound. */
  function ImageStage(ch: Channel, planner: Doc, bound: bool, o: UnitOracle, cid: string): (r: Result<Value, Exc>)
    ensures r.Ok? ==> Truthy(r.value) && (bound || ch == Instagram)
    ensures r.Ok? ==> Truthy(Get(planner, "image_prompt", Null))
    ensures !(bound || ch == Instagram) && Truthy(Get(planner, "image_prompt", Null))
      ==> r == Err(UnboundLocalError("ContentRequest"))
  {
    if !Truthy(Dict(planner)) then Err(Raised("Planner returned None"))
    else
      var prompt := Get(planner, "image_prompt", Null);
      if !Truthy(prompt) then Err(Raised("No image prompt returned from planner"))
      else if !(bound || ch == Instagram) then Err(UnboundLocalError("ContentRequest"))
      else if !prompt.Str? then Err(ValidationError("ContentRequest"))
      else
        var image := GenerateImage(ch, prompt.s, cid, o.controller);
        if !image.Dict? then Err(NoAttribute(image, "get"))
        else
          var url := Get(image.fields, "image_url", Null);
          if !Truthy(url) then Err(Raised("No image URL returned from image generation"))
          else Ok(url)
  }

  /** `datetime.fromisoformat(posts_data.get('scheduled_time').replace('Z', '+00:00'))`:
      a datetime has a `replace` of its own, which rejects the string as
      its `year`; other non-strings have no `replace` at all. */
  function ScheduleStage(b: Batch): (r: Result<(string, DateTime), Exc>)
    ensures var st := Get(b.postsData, "scheduled_time", Null);
      && (r.Ok? <==> st.Str? && ParseIso(b.env, st.s).Some?)
      && (r.Ok? ==> r.value == (st.s, ParseIso(b.env, st.s).value))
      && (st.Str? && ParseIso(b.env, st.s).None? ==> r == Err(BadIso(ZRewrite(st.s))))
      && (st.Time? ==> r == Err(TypeError(ReplaceOnDatetime)))
      && (!st.Str? && !st.Time? ==> r == Err(NoAttribute(st, "replace")))
  {
    var st := Get(b.postsData, "scheduled_time", Null);
    if st.Time? then Err(TypeError(ReplaceOnDatetime))
    else if !st.Str? then Err(NoAttribute(st, "replace"))
    else match ParseIso(b.env, st.s)
      case None => Err(BadIso(ZRewrite(st.s)))
      case Some(dt) => Ok((st.s, dt))
  }

  /** The shape of a stored unit post: this channel, this company, the
      request's `scheduled_time` and its parsed datetime, a truthy image. */
  predicate PostShaped(d: Doc, ch: Channel, b: Batch) {
    var st := Get(b.postsData, "scheduled_time", Null);
    && d.Keys == PostFieldNames
    && d["channel"] == Str(Name(ch))
    && d["company_id"] == Str(b.cid)
    && st.Str? && ParseIso(b.env, st.s).Some?
    && d["scheduled_time"] == st
    && d["scheduled_datetime"] == Time(ParseIso(b.env, st.s).value)
    && Truthy(d["image_url"])
  }

  /** The body of one unit's `try`: the post it would add, or the exception
      it raises. */
  function UnitBody(ch: Channel, k: nat, db: Db, bound: bool, b: Batch): (r: Result<Doc, Exc>)
    ensures r.Ok? ==> Planner(ch, db, b.cid, b.oracle(ch, k).completion, b.env).Ok?
    ensures r.Ok? ==> bound || ch == Instagram
    ensures r.Ok? ==> PostShaped(r.value, ch, b)
  {
    var o := b.oracle(ch, k);
    match Planner(ch, db, b.cid, o.completion, b.env)
    case Err(e) => Err(e)
    case Ok(planner) =>
      match ImageStage(ch, planner, bound, o, b.cid)
      case Err(e) => Err(e)
      case Ok(url) =>
        match ScheduleStage(b)
        case Err(e) => Err(e)
        case Ok(sd) => Ok(UnitPost(ch, b, planner, url, sd.0, sd.1))
  }

  /** The 500 detail for a failed unit; `k` counts from 0. */
  function UnitFailure(ch: Channel, k: nat, cid: string, e: Exc): Exc {
    HttpException(500, "Couldn't generate " + Title(ch) + " post number " + NatToString(k + 1)
      + " for company " + cid + ": " + Text(e))
  }

  /** What a unit promises, stated on its result alone: stopping leaves
      the store as it was; going on needs `ContentRequest` bound, adds one
      well-shaped post under the unit's auto id and lists that id. */
  predicate StepOk(r: Run, k: nat, p: Progress, ch: Channel, b: Batch) {
    && (r.Halted? ==> r.db == p.db)
    && (r.Running? ==>
      var q := PostPath(ch, b.cid, b.oracle(ch, k).postId);
      && (p.bound || ch == Instagram)
      && r.p.ids == p.ids + [b.oracle(ch, k).postId]
      && r.p.bound
      && q in r.p.db
      && r.p.db == p.db[q := r.p.db[q]]
      && PostShaped(r.p.db[q], ch, b))
  }

  /** One unit: add the post, or stop with the wrapped error and the store
      as it was. */
  function Unit(ch: Channel, k: nat, p: Progress, b: Batch): (r: Run)
    ensures r.Halted? ==>
      && UnitBody(ch, k, p.db, p.bound, b).Err?
      && r.error == UnitFailure(ch, k, b.cid, UnitBody(ch, k, p.db, p.bound, b).error)
    ensures r.Running? <==> UnitBody(ch, k, p.db, p.bound, b).Ok?
  {
    match UnitBody(ch, k, p.db, p.bound, b)
    case Err(e) => Halted(p.db, UnitFailure(ch, k, b.cid, e))
    case Ok(doc) =>
      var id := b.oracle(ch, k).postId;
      Running(Progress(p.db[PostPath(ch, b.cid, id) := doc], p.ids + [id], p.bound || ch == Instagram))
  }

  /** Every unit keeps `StepOk`. */
  lemma UnitKeepsStepOk(ch: Channel, k: nat, p: Progress, b: Batch)
    ensures StepOk(Unit(ch, k, p, b), k, p, ch, b)
  {
  }

  /** A unit as a value: unit `k` run on progress `p`. */
  type Step = (nat, Progress) -> Run

  /** A step for each channel. */
  type Units = Channel -> Step

  /** The call's units. */
  function BatchUnits(b: Batch): Units {
    (ch: Channel) => (k: nat, p: Progress) => Unit(ch, k, p, b)
  }

  /** Every unit of `units` keeps `StepOk`. */
  ghost predicate UnitsContract(units: Units, b: Batch) {
    forall ch: Channel, k: nat, p: Progress :: StepOk(units(ch)(k, p), k, p, ch, b)
  }

  lemma BatchUnitsContract(b: Batch)
    ensures UnitsContract(BatchUnits(b), b)
  {
    forall ch: Channel, k: nat, p: Progress
      ensures StepOk(BatchUnits(b)(ch)(k, p), k, p, ch, b)
    {
      UnitKeepsStepOk(ch, k, p, b);
    }
  }

  /** Units `k` to `n - 1`, stopping at the first failure. */
  function RunSteps(k: nat, n: nat, p: Progress, step: Step): Run
    decreases n - k
  {
    if k >= n then Running(p)
    else match step(k, p)
      case Halted(d, e) => Halted(d, e)
      case Running(p') => RunSteps(k + 1, n, p', step)
  }

  /** An error outside every unit, as the outer handler reports it. */
  function OuterFailure(e: Exc): Exc {
    HttpException(500, "Failed to generate scheduled posts: " + Text(e))
  }

  /** A channel's loop: its count is read when the loop starts, the ids
      list starts empty. */
  function RunChannel(ch: Channel, db: Db, bound: bool, b: Batch, step: Step): Run {
    match CountOf(b, ch)
    case Err(e) => Halted(db, OuterFailure(e))
    case Ok(n) => RunSteps(0, n, Progress(db, [], bound), step)
  }

  /** The success body: all ids in channel order and each channel's count. */
  function BatchValue(ids: seq<string>, counts: seq<nat>): Value
    requires |counts| == 3
  {
    Dict(map[
      "status" := Str("success"),
      "post_ids" := List(seq(|ids|, i requires 0 <= i < |ids| => Str(ids[i]))),
      "counts" := Dict(map[
        "instagram" := Int(counts[0]),
        "facebook" := Int(counts[1]),
        "linkedin" := Int(counts[2])])])
  }

  /** The channels from position `c` of `BatchOrder` on: the final store
      and either the error or all ids listed and the per-channel counts. */
  function RunFrom(c: nat, db: Db, bound: bool, ids: seq<string>, counts: seq<nat>, b: Batch, units: Units)
    : (r: (Db, Result<(seq<string>, seq<nat>), Exc>))
    requires c <= 3 && |counts| == c
    ensures r.1.Ok? ==> |r.1.value.1| == 3
    decreases 3 - c
  {
    if c == 3 then (db, Ok((ids, counts)))
    else match RunChannel(BatchOrder[c], db, bound, b, units(BatchOrder[c]))
      case Halted(d, e) => (d, Err(e))
      case Running(p) => RunFrom(c + 1, p.db, p.bound, ids + p.ids, counts + [|p.ids|], b, units)
  }

  /** `PlannerRequest(theme_title=..., theme_description=...)` accepts only
      `None` or a string for each. */
  predicate PlannerRequestValid(b: Batch) {
    var theme := Get(b.postsData, "theme", Null);
    var desc := Get(b.postsData, "theme_description", Null);
    (theme.Null? || theme.Str?) && (desc.Null? || desc.Str?)
  }

  /** The function with `ContentRequest` bound from the start or not. */
  function Generate(db: Db, b: Batch, bound0: bool): (Db, Result<Value, Exc>) {
    if !PlannerRequestValid(b) then (db, Err(OuterFailure(ValidationError("PlannerRequest"))))
    else
      var (d, r) := RunFrom(0, db, bound0, [], [], b, BatchUnits(b));
      (d, if r.Ok? then Ok(BatchValue(r.value.0, r.value.1)) else Err(r.error))
  }

  /** `generate_scheduled_posts` as written: the final store and the
      response or error. `ContentRequest` is imported inside the Instagram
      loop, so it starts unbound. */
  function GenerateScheduledPosts(db: Db, b: Batch): (Db, Result<Value, Exc>) {
    Generate(db, b, false)
  }

  /** The same function with `ContentRequest` imported at module level, as
      the Facebook and LinkedIn loops evidently expect. */
  function GenerateScheduledPostsImported(db: Db, b: Batch): (Db, Result<Value, Exc>) {
    Generate(db, b, true)
  }

  /** Units `0` to `n - 1` in sequence; the first failure stops the loop
      with the store as it then is. */
  method StepsLoop(n: nat, p0: Progress, step: Step) returns (run: Run)
    ensures run == RunSteps(0, n, p0, step)
  {
    var k := 0;
    var p := p0;
    while k < n
      invariant 0 <= k <= n
      invariant RunSteps(k, n, p, step) == RunSteps(0, n, p0, step)
    {
      var r := step(k, p);
      if r.Halted? {
        return r;
      }
      p := r.p;
      k := k + 1;
    }
    return Running(p);
  }

  /** The whole function, `bound0` choosing whether `ContentRequest` is
      bound from the start: the channels run in `BatchOrder`, the first
      failure ends the call. */
  method RunBatch(db: Db, b: Batch, bound0: bool) returns (db': Db, r: Result<Value, Exc>)
    ensures (db', r) == Generate(db, b, bound0)
  {
    if !PlannerRequestValid(b) {
      return db, Err(OuterFailure(ValidationError("PlannerRequest")));
    }
    var units := BatchUnits(b);
    var c := 0;
    var d := db;
    var bound := bound0;
    var ids: seq<string> := [];
    var counts: seq<nat> := [];
    while c < 3
      invariant 0 <= c <= 3 && |counts| == c
      invariant RunFrom(c, d, bound, ids, counts, b, units) == RunFrom(0, db, bound0, [], [], b, units)
      invariant units == BatchUnits(b)
    {
      var ch := BatchOrder[c];
      var count := CountOf(b, ch);
      var run;
      if count.Err? {
        run := Halted(d, OuterFailure(count.error));
      } else {
        run := StepsLoop(count.value, Progress(d, [], bound), units(ch));
      }
      if run.Halted? {
        return run.db, Err(run.error);
      }
      d, bound, ids, counts := run.p.db, run.p.bound, ids + run.p.ids, counts + [|run.p.ids|];
      c := c + 1;
    }
    return d, Ok(BatchValue(ids, counts));
  }

  /** The ids `add` hands out to the first `n` units of a channel. */
  function ChannelIds(b: Batch, ch: Channel, n: nat): (ids: seq<string>)
    ensures |ids| == n
  {
    seq(n, j requires 0 <= j < n => b.oracle(ch, j).postId)
  }

  /** A run that goes on lists one new id per unit, in unit order, and has
      `ContentRequest` bound exactly when it was bound before or some unit
      ran. */
  lemma {:induction false} RunStepsIds(k: nat, n: nat, p: Progress, ch: Channel, b: Batch, units: Units)
    requires k <= n && UnitsContract(units, b)
    ensures var r := RunSteps(k, n, p, units(ch));
      r.Running? ==>
        && r.p.ids == p.ids + ChannelIds(b, ch, n)[k..]
        && r.p.bound == (p.bound || k < n)
    decreases n - k
  {
    if k < n {
      var u := units(ch)(k, p);
      assert StepOk(u, k, p, ch, b);
      if u.Running? {
        RunStepsIds(k + 1, n, u.p, ch, b, units);
        var all := ChannelIds(b, ch, n);
        assert all[k..] == [all[k]] + all[k + 1..];
        assert u.p.ids + all[k + 1..] == p.ids + all[k..];
      }
    }
  }

  /** A run that stops, stops at some unit `j`: the units before it all
      went through, and the store and error are exactly what unit `j`
      left. */
  lemma {:induction false} RunStepsHalted(k: nat, n: nat, p: Progress, step: Step)
    requires k <= n
    ensures var r := RunSteps(k, n, p, step);
      r.Halted? ==>
        exists j :: k <= j < n && RunSteps(k, j, p, step).Running? && step(j, RunSteps(k, j, p, step).p) == r
    decreases n - k
  {
    var r := RunSteps(k, n, p, step);
    if k < n && r.Halted? {
      var u := step(k, p);
      if u.Halted? {
        assert RunSteps(k, k, p, step) == Running(p);
      } else {
        RunStepsHalted(k + 1, n, u.p, step);
        var j :| k + 1 <= j < n && RunSteps(k + 1, j, u.p, step).Running?
          && step(j, RunSteps(k + 1, j, u.p, step).p) == r;
        assert RunSteps(k, j, p, step) == RunSteps(k + 1, j, u.p, step);
      }
    }
  }

  /** A unit that fails reports its channel and its 1-based number, and
      leaves the store as it found it. */
  lemma UnitFailureNamesUnit(ch: Channel, k: nat, p: Progress, b: Batch)
    requires Unit(ch, k, p, b).Halted?
    ensures Unit(ch, k, p, b).db == p.db
    ensures Unit(ch, k, p, b).error == UnitFailure(ch, k, b.cid, UnitBody(ch, k, p.db, p.bound, b).error)
  {
  }

  /** The store a run ends with, whether it went on or stopped. */
  function RunDb(r: Run): Db {
    if r.Running? then r.p.db else r.db
  }

  /** Firestore's auto ids for units `k` to `n - 1` name no document yet
      and differ from each other. */
  predicate FreshUnits(db: Db, b: Batch, ch: Channel, k: nat, n: nat) {
    && (forall j :: k <= j < n ==> PostPath(ch, b.cid, b.oracle(ch, j).postId) !in db)
    && (forall i, j :: k <= i < j < n ==> b.oracle(ch, i).postId != b.oracle(ch, j).postId)
  }

  /** After unit `k` added its post, the later units' ids are still fresh. */
  lemma FreshAfterUnit(db: Db, b: Batch, ch: Channel, k: nat, n: nat, d: Doc)
    requires k < n && FreshUnits(db, b, ch, k, n)
    ensures FreshUnits(db[PostPath(ch, b.cid, b.oracle(ch, k).postId) := d], b, ch, k + 1, n)
  {
    var q0 := PostPath(ch, b.cid, b.oracle(ch, k).postId);
    forall j | k + 1 <= j < n
      ensures PostPath(ch, b.cid, b.oracle(ch, j).postId) != q0
    {
      assert PostPath(ch, b.cid, b.oracle(ch, j).postId)[3] == b.oracle(ch, j).postId;
      assert q0[3] == b.oracle(ch, k).postId;
    }
  }

  /** With fresh ids, a run only adds documents, all in the channel's posts
      collection: what was stored before stays, also when a later unit
      fails (there is no rollback). */
  lemma {:induction false} RunStepsExtends(k: nat, n: nat, p: Progress, ch: Channel, b: Batch, units: Units)
    requires k <= n && UnitsContract(units, b) && FreshUnits(p.db, b, ch, k, n)
    ensures var d := RunDb(RunSteps(k, n, p, units(ch)));
      && (forall q :: q in p.db ==> q in d && d[q] == p.db[q])
      && (forall q :: q in d && q !in p.db ==> InCollection(q, PostsOf(ch, b.cid)))
    decreases n - k
  {
    if k < n {
      var u := units(ch)(k, p);
      assert StepOk(u, k, p, ch, b);
      if u.Running? {
        var q0 := PostPath(ch, b.cid, b.oracle(ch, k).postId);
        FreshAfterUnit(p.db, b, ch, k, n, u.p.db[q0]);
        RunStepsExtends(k + 1, n, u.p, ch, b, units);
        assert q0[..3] == PostsOf(ch, b.cid);
      }
    }
  }

  /** With fresh ids, a run that goes on has stored, under every id it
      handed out, a post of this channel with the request's schedule. */
  lemma {:induction false} RunStepsStores(k: nat, n: nat, p: Progress, ch: Channel, b: Batch, units: Units)
    requires k <= n && UnitsContract(units, b) && FreshUnits(p.db, b, ch, k, n)
    ensures var r := RunSteps(k, n, p, units(ch));
      r.Running? ==> forall j :: k <= j < n ==>
        PostPath(ch, b.cid, b.oracle(ch, j).postId) in r.p.db
        && PostShaped(r.p.db[PostPath(ch, b.cid, b.oracle(ch, j).postId)], ch, b)
    decreases n - k
  {
    var r := RunSteps(k, n, p, units(ch));
    if k < n && r.Running? {
      var u := units(ch)(k, p);
      assert StepOk(u, k, p, ch, b);
      var q0 := PostPath(ch, b.cid, b.oracle(ch, k).postId);
      FreshAfterUnit(p.db, b, ch, k, n, u.p.db[q0]);
      RunStepsExtends(k + 1, n, u.p, ch, b, units);
      RunStepsStores(k + 1, n, u.p, ch, b, units);
    }
  }

  /** Units `k` to `n - 1` are all a run consults. */
  lemma {:induction false} RunStepsLocal(k: nat, n: nat, p: Progress, s1: Step, s2: Step)
    requires k <= n
    requires forall j: nat, q: Progress :: k <= j < n ==> s1(j, q) == s2(j, q)
    ensures RunSteps(k, n, p, s1) == RunSteps(k, n, p, s2)
    decreases n - k
  {
    if k < n {
      var u := s1(k, p);
      assert u == s2(k, p);
      if u.Running? {
        RunStepsLocal(k + 1, n, u.p, s1, s2);
      }
    }
  }

  /** A run whose first unit goes through had `ContentRequest` bound (or is
      Instagram's) and a string `scheduled_time` that parses. */
  lemma FirstUnitNeeds(n: nat, p: Progress, ch: Channel, b: Batch, units: Units)
    requires 0 < n && UnitsContract(units, b) && RunSteps(0, n, p, units(ch)).Running?
    ensures p.bound || ch == Instagram
    ensures Get(b.postsData, "scheduled_time", Null).Str?
  {
    assert StepOk(units(ch)(0, p), 0, p, ch, b);
  }

  /** A channel that went on ran exactly its count of units, listing their
      ids in order. */
  lemma ChannelSuccess(ch: Channel, db: Db, bound: bool, b: Batch, units: Units)
    requires UnitsContract(units, b) && RunChannel(ch, db, bound, b, units(ch)).Running?
    ensures CountOf(b, ch).Ok?
    ensures var r, n := RunChannel(ch, db, bound, b, units(ch)), CountOf(b, ch).value;
      && r.p.ids == ChannelIds(b, ch, n)
      && r.p.bound == (bound || n > 0)
      && (n > 0 ==> bound || ch == Instagram)
      && (n > 0 ==> Get(b.postsData, "scheduled_time", Null).Str?)
  {
    var n := CountOf(b, ch).value;
    RunStepsIds(0, n, Progress(db, [], bound), ch, b, units);
    if n > 0 {
      FirstUnitNeeds(n, Progress(db, [], bound), ch, b, units);
    }
  }

  /** Every channel from position `c` of `BatchOrder` on has a valid count. */
  predicate CountsValidFrom(c: nat, b: Batch) {
    forall i :: c <= i < 3 ==> CountOf(b, BatchOrder[i]).Ok?
  }

  /** The ids the channels from `c` on hand out when each runs its count. */
  function IdsFrom(c: nat, b: Batch): seq<string>
    requires c <= 3 && CountsValidFrom(c, b)
    decreases 3 - c
  {
    if c == 3 then [] else ChannelIds(b, BatchOrder[c], CountOf(b, BatchOrder[c]).value) + IdsFrom(c + 1, b)
  }

  /** The counts of the channels from `c` on. */
  function CountsFrom(c: nat, b: Batch): (r: seq<nat>)
    requires c <= 3 && CountsValidFrom(c, b)
    ensures |r| == 3 - c
    decreases 3 - c
  {
    if c == 3 then [] else [CountOf(b, BatchOrder[c]).value] + CountsFrom(c + 1, b)
  }

  lemma AppendAssoc<T>(a: seq<T>, b: seq<T>, c: seq<T>)
    ensures a + b + c == a + (b + c)
  {
  }

  /** The channels from `c` on succeed only with valid counts, listing the
      ids of exactly the requested units after those listed so far. */
  lemma {:induction false} RunFromSuccess(c: nat, db: Db, bound: bool, ids: seq<string>, counts: seq<nat>, b: Batch, units: Units)
    requires c <= 3 && |counts| == c && UnitsContract(units, b)
    requires RunFrom(c, db, bound, ids, counts, b, units).1.Ok?
    ensures CountsValidFrom(c, b)
    ensures RunFrom(c, db, bound, ids, counts, b, units).1.value == (ids + IdsFrom(c, b), counts + CountsFrom(c, b))
    decreases 3 - c
  {
    if c == 3 {
      assert ids + [] == ids && counts + [] == counts;
    } else {
      var ch := BatchOrder[c];
      var r := RunChannel(ch, db, bound, b, units(ch));
      assert r.Running?;
      ChannelSuccess(ch, db, bound, b, units);
      RunFromSuccess(c + 1, r.p.db, r.p.bound, ids + r.p.ids, counts + [|r.p.ids|], b, units);
      var n := CountOf(b, ch).value;
      assert IdsFrom(c, b) == ChannelIds(b, ch, n) + IdsFrom(c + 1, b);
      assert CountsFrom(c, b) == [n] + CountsFrom(c + 1, b);
      AppendAssoc(ids, r.p.ids, IdsFrom(c + 1, b));
      AppendAssoc(counts, [|r.p.ids|], CountsFrom(c + 1, b));
    }
  }

  /** With `ContentRequest` unbound and no Instagram post asked for, the
      channels from `c` on succeed only if none asks for a post. */
  lemma {:induction false} UnboundRunsNothing(c: nat, db: Db, ids: seq<string>, counts: seq<nat>, b: Batch, units: Units)
    requires c <= 3 && |counts| == c && UnitsContract(units, b)
    requires forall i :: c <= i < 3 && BatchOrder[i] == Instagram ==> CountOf(b, BatchOrder[i]) == Ok(0)
    requires RunFrom(c, db, false, ids, counts, b, units).1.Ok?
    ensures forall i :: c <= i < 3 ==> CountOf(b, BatchOrder[i]) == Ok(0)
    decreases 3 - c
  {
    if c < 3 {
      var ch := BatchOrder[c];
      var r := RunChannel(ch, db, false, b, units(ch));
      assert r.Running?;
      ChannelSuccess(ch, db, false, b, units);
      UnboundRunsNothing(c + 1, r.p.db, ids + r.p.ids, counts + [|r.p.ids|], b, units);
    }
  }

  /** Without a string `scheduled_time` no unit succeeds, so from channel
      `c` on no count may ask for a post. */
  lemma {:induction false} UnscheduledRunsNothing(c: nat, db: Db, bound: bool, ids: seq<string>, counts: seq<nat>, b: Batch, units: Units)
    requires c <= 3 && |counts| == c && UnitsContract(units, b)
    requires !Get(b.postsData, "scheduled_time", Null).Str?
    requires RunFrom(c, db, bound, ids, counts, b, units).1.Ok?
    ensures forall i :: c <= i < 3 ==> CountOf(b, BatchOrder[i]) == Ok(0)
    decreases 3 - c
  {
    if c < 3 {
      var ch := BatchOrder[c];
      var r := RunChannel(ch, db, bound, b, units(ch));
      assert r.Running?;
      ChannelSuccess(ch, db, bound, b, units);
      UnscheduledRunsNothing(c + 1, r.p.db, r.p.bound, ids + r.p.ids, counts + [|r.p.ids|], b, units);
    }
  }

  /** The three channels succeed only with valid counts, listing the ids
      of the requested units in channel order; with `ContentRequest`
      unbound at the start, Facebook or LinkedIn posts need at least one
      Instagram post. */
  lemma ChannelsSuccess(db: Db, b: Batch, bound0: bool, units: Units)
    requires UnitsContract(units, b) && RunFrom(0, db, bound0, [], [], b, units).1.Ok?
    ensures CountOf(b, Instagram).Ok? && CountOf(b, Facebook).Ok? && CountOf(b, LinkedIn).Ok?
    ensures var nI, nF, nL := CountOf(b, Instagram).value, CountOf(b, Facebook).value, CountOf(b, LinkedIn).value;
      && RunFrom(0, db, bound0, [], [], b, units).1.value
        == (ChannelIds(b, Instagram, nI) + ChannelIds(b, Facebook, nF) + ChannelIds(b, LinkedIn, nL), [nI, nF, nL])
      && (!bound0 && (nF > 0 || nL > 0) ==> nI > 0)
  {
    RunFromSuccess(0, db, bound0, [], [], b, units);
    assert [] + IdsFrom(0, b) == IdsFrom(0, b) && [] + CountsFrom(0, b) == CountsFrom(0, b);
    assert BatchOrder[0] == Instagram && BatchOrder[1] == Facebook && BatchOrder[2] == LinkedIn;
    var nI := CountOf(b, Instagram).value;
    assert IdsFrom(0, b) == ChannelIds(b, Instagram, nI) + ChannelIds(b, Facebook, CountOf(b, Facebook).value)
      + ChannelIds(b, LinkedIn, CountOf(b, LinkedIn).value);
    assert CountsFrom(0, b) == [nI, CountOf(b, Facebook).value, CountOf(b, LinkedIn).value];
    if !bound0 && nI == 0 {
      UnboundRunsNothing(0, db, [], [], b, units);
    }
  }

  /** A successful call lists the ids of the requested units, Instagram's
      first, then Facebook's, then LinkedIn's, with each count equal to the
      number requested; with `ContentRequest` unbound at the start it can
      only succeed with Facebook or LinkedIn posts if at least one
      Instagram post was asked for. */
  lemma GenerateSuccess(db: Db, b: Batch, bound0: bool)
    requires Generate(db, b, bound0).1.Ok?
    ensures PlannerRequestValid(b)
    ensures CountOf(b, Instagram).Ok? && CountOf(b, Facebook).Ok? && CountOf(b, LinkedIn).Ok?
    ensures var nI, nF, nL := CountOf(b, Instagram).value, CountOf(b, Facebook).value, CountOf(b, LinkedIn).value;
      && Generate(db, b, bound0).1.value
        == BatchValue(ChannelIds(b, Instagram, nI) + ChannelIds(b, Facebook, nF) + ChannelIds(b, LinkedIn, nL), [nI, nF, nL])
      && (!bound0 && (nF > 0 || nL > 0) ==> nI > 0)
  {
    BatchUnitsContract(b);
    ChannelsSuccess(db, b, bound0, BatchUnits(b));
  }

  /** A call without a string `scheduled_time` (absent, `None`, or a
      datetime) that asks for any post fails. */
  lemma UnscheduledBatchFails(db: Db, b: Batch, bound0: bool, ch: Channel)
    requires !Get(b.postsData, "scheduled_time", Null).Str?
    requires CountOf(b, ch).Ok? && CountOf(b, ch).value > 0
    ensures Generate(db, b, bound0).1.Err?
  {
    if Generate(db, b, bound0).1.Ok? {
      BatchUnitsContract(b);
      UnscheduledRunsNothing(0, db, bound0, [], [], b, BatchUnits(b));
    }
  }

  /** Two calls with the same request and the same collaborators. */
  ghost predicate SameRequest(b1: Batch, b2: Batch) {
    b1.cid == b2.cid && b1.postsData == b2.postsData && b1.env == b2.env && b1.now == b2.now
  }

  /** A unit consults only its own oracle. */
  lemma UnitLocal(ch: Channel, k: nat, p: Progress, b1: Batch, b2: Batch)
    requires SameRequest(b1, b2) && b1.oracle(ch, k) == b2.oracle(ch, k)
    ensures Unit(ch, k, p, b1) == Unit(ch, k, p, b2)
  {
    assert ScheduleStage(b1) == ScheduleStage(b2);
  }

  /** Whether unit `j` of `ch` is one the call's counts ask for. */
  predicate Requested(b: Batch, ch: Channel, j: nat) {
    CountOf(b, ch).Ok? && j < CountOf(b, ch).value
  }

  /** The channels from `c` on consult only units below each count. */
  lemma {:induction false} RunFromLocal(c: nat, db: Db, bound: bool, ids: seq<string>, counts: seq<nat>, b: Batch, u1: Units, u2: Units)
    requires c <= 3 && |counts| == c
    requires forall ch, j: nat, q: Progress :: Requested(b, ch, j) ==> u1(ch)(j, q) == u2(ch)(j, q)
    ensures RunFrom(c, db, bound, ids, counts, b, u1) == RunFrom(c, db, bound, ids, counts, b, u2)
    decreases 3 - c
  {
    if c < 3 {
      var ch := BatchOrder[c];
      if CountOf(b, ch).Ok? {
        var n := CountOf(b, ch).value;
        forall j: nat, q: Progress | 0 <= j < n
          ensures u1(ch)(j, q) == u2(ch)(j, q)
        {
          assert Requested(b, ch, j);
        }
        RunStepsLocal(0, n, Progress(db, [], bound), u1(ch), u2(ch));
      }
      var r := RunChannel(ch, db, bound, b, u1(ch));
      if r.Running? {
        RunFromLocal(c + 1, r.p.db, r.p.bound, ids + r.p.ids, counts + [|r.p.ids|], b, u1, u2);
      }
    }
  }

  /** The outcome of a call depends only on the units its counts ask for:
      what a unit beyond a channel's count would see changes nothing. */
  lemma OnlyRequestedUnitsMatter(db: Db, b1: Batch, b2: Batch, bound0: bool)
    requires SameRequest(b1, b2)
    requires forall ch, j :: Requested(b1, ch, j) ==> b1.oracle(ch, j) == b2.oracle(ch, j)
    ensures Generate(db, b1, bound0) == Generate(db, b2, bound0)
  {
    var u1, u2 := BatchUnits(b1), BatchUnits(b2);
    forall ch, j: nat, q: Progress | Requested(b1, ch, j)
      ensures u1(ch)(j, q) == u2(ch)(j, q)
    {
      UnitLocal(ch, j, q, b1, b2);
    }
    RunFromLocal(0, db, bound0, [], [], b1, u1, u2);
    assert PlannerRequestValid(b1) == PlannerRequestValid(b2);
    assert forall c: nat :: c < 3 ==> CountOf(b1, BatchOrder[c]) == CountOf(b2, BatchOrder[c]);
    RunFromSameCounts(0, db, bound0, [], [], b1, b2, u2);
  }

  /** `RunFrom` reads a call only through its counts. */
  lemma {:induction false} RunFromSameCounts(c: nat, db: Db, bound: bool, ids: seq<string>, counts: seq<nat>, b1: Batch, b2: Batch, units: Units)
    requires c <= 3 && |counts| == c && b1.postsData == b2.postsData
    ensures RunFrom(c, db, bound, ids, counts, b1, units) == RunFrom(c, db, bound, ids, counts, b2, units)
    decreases 3 - c
  {
    if c < 3 {
      var r := RunChannel(BatchOrder[c], db, bound, b1, units(BatchOrder[c]));
      if r.Running? {
        RunFromSameCounts(c + 1, r.p.db, r.p.bound, ids + r.p.ids, counts + [|r.p.ids|], b1, b2, units);
      }
    }
  }

  /** An Instagram unit binds `ContentRequest` itself, so whether it was
      bound before makes no difference to it. */
  lemma InstagramUnitIgnoresBinding(k: nat, d: Db, ids: seq<string>, b: Batch)
    ensures Unit(Instagram, k, Progress(d, ids, false), b) == Unit(Instagram, k, Progress(d, ids, true), b)
  {
    InstagramBodyIgnoresBinding(k, d, b);
  }

  lemma InstagramBodyIgnoresBinding(k: nat, d: Db, b: Batch)
    ensures UnitBody(Instagram, k, d, false, b) == UnitBody(Instagram, k, d, true, b)
  {
    var o := b.oracle(Instagram, k);
    match Planner(Instagram, d, b.cid, o.completion, b.env)
    case Err(_) =>
    case Ok(planner) =>
      ImageStageInstagram(planner, o, b.cid);
  }

  lemma ImageStageInstagram(planner: Doc, o: UnitOracle, cid: string)
    ensures ImageStage(Instagram, planner, false, o, cid) == ImageStage(Instagram, planner, true, o, cid)
  {
  }

  /** A Facebook or LinkedIn unit that would go through with
      `ContentRequest` bound fails with `UnboundLocalError` without it. */
  lemma UnboundUnitFails(ch: Channel, k: nat, d: Db, ids: seq<string>, b: Batch)
    requires ch != Instagram && Unit(ch, k, Progress(d, ids, true), b).Running?
    ensures Unit(ch, k, Progress(d, ids, false), b) == Halted(d, UnitFailure(ch, k, b.cid, UnboundLocalError("ContentRequest")))
  {
    var o := b.oracle(ch, k);
    var planner := Planner(ch, d, b.cid, o.completion, b.env).value;
    assert ImageStage(ch, planner, true, o, b.cid).Ok?;
    assert UnitBody(ch, k, d, false, b) == Err(UnboundLocalError("ContentRequest"));
  }

  /** Instagram's units do not depend on whether `ContentRequest` is bound. */
  ghost predicate IgnoresBinding(units: Units) {
    forall k: nat, d: Db, ids: seq<string> ::
      units(Instagram)(k, Progress(d, ids, false)) == units(Instagram)(k, Progress(d, ids, true))
  }

  /** Other channels' units fail without `ContentRequest` bound whenever
      they would go through with it. */
  ghost predicate NeedsBinding(units: Units, b: Batch) {
    forall ch: Channel, k: nat, d: Db, ids: seq<string> ::
      ch != Instagram && units(ch)(k, Progress(d, ids, true)).Running? ==>
        units(ch)(k, Progress(d, ids, false)) == Halted(d, UnitFailure(ch, k, b.cid, UnboundLocalError("ContentRequest")))
  }

  lemma BatchUnitsBinding(b: Batch)
    ensures IgnoresBinding(BatchUnits(b)) && NeedsBinding(BatchUnits(b), b)
  {
    forall k: nat, d: Db, ids: seq<string>
      ensures BatchUnits(b)(Instagram)(k, Progress(d, ids, false)) == BatchUnits(b)(Instagram)(k, Progress(d, ids, true))
    {
      InstagramUnitIgnoresBinding(k, d, ids, b);
    }
    forall ch: Channel, k: nat, d: Db, ids: seq<string> |
      ch != Instagram && BatchUnits(b)(ch)(k, Progress(d, ids, true)).Running?
      ensures BatchUnits(b)(ch)(k, Progress(d, ids, false)) == Halted(d, UnitFailure(ch, k, b.cid, UnboundLocalError("ContentRequest")))
    {
      UnboundUnitFails(ch, k, d, ids, b);
    }
  }

  /** Once an Instagram unit has run, the import's place no longer
      matters: the three channels give the same outcome either way. */
  lemma ChannelsBindingIrrelevant(db: Db, b: Batch, units: Units)
    requires IgnoresBinding(units)
    requires CountOf(b, Instagram).Ok? && CountOf(b, Instagram).value > 0
    ensures RunFrom(0, db, false, [], [], b, units) == RunFrom(0, db, true, [], [], b, units)
  {
    var s := units(Instagram);
    var n := CountOf(b, Instagram).value;
    assert s(0, Progress(db, [], false)) == s(0, Progress(db, [], true));
    assert RunSteps(0, n, Progress(db, [], false), s) == RunSteps(0, n, Progress(db, [], true), s);
    assert RunChannel(Instagram, db, false, b, s) == RunChannel(Instagram, db, true, b, s);
  }

  /** `generate_scheduled_posts` as written behaves like the corrected
      version whenever at least one Instagram post is asked for. */
  lemma ImportIrrelevantWithInstagram(db: Db, b: Batch)
    requires CountOf(b, Instagram).Ok? && CountOf(b, Instagram).value > 0
    ensures GenerateScheduledPosts(db, b) == GenerateScheduledPostsImported(db, b)
  {
    BatchUnitsBinding(b);
    ChannelsBindingIrrelevant(db, b, BatchUnits(b));
  }

  /** With no Instagram post asked for, a Facebook run that would succeed
      with `ContentRequest` bound fails at its first unit without it. */
  lemma ChannelsFacebookOnly(db: Db, b: Batch, units: Units)
    requires NeedsBinding(units, b)
    requires CountOf(b, Instagram) == Ok(0) && CountOf(b, Facebook).Ok? && CountOf(b, Facebook).value > 0
    requires RunFrom(0, db, true, [], [], b, units).1.Ok?
    ensures RunFrom(0, db, false, [], [], b, units) == (db, Err(UnitFailure(Facebook, 0, b.cid, UnboundLocalError("ContentRequest"))))
  {
    var s := units(Facebook);
    var n := CountOf(b, Facebook).value;
    assert RunChannel(Instagram, db, true, b, units(Instagram)) == Running(Progress(db, [], true));
    assert RunChannel(Instagram, db, false, b, units(Instagram)) == Running(Progress(db, [], false));
    var noIds: seq<string>, noCounts: seq<nat> := [], [];
    assert noIds + noIds == noIds && noCounts + [0] == [0];
    assert RunFrom(0, db, true, [], [], b, units) == RunFrom(1, db, true, [], [0], b, units);
    assert RunChannel(Facebook, db, true, b, s).Running?;
    assert s(0, Progress(db, [], true)).Running?;
    assert s(0, Progress(db, [], false)) == Halted(db, UnitFailure(Facebook, 0, b.cid, UnboundLocalError("ContentRequest")));
    assert RunFrom(0, db, false, [], [], b, units) == RunFrom(1, db, false, [], [0], b, units);
  }

  /** A request for Facebook posts and no Instagram post that the
      corrected version serves fails as written: the first Facebook unit
      reaches `ContentRequest(...)` before anything bound the name. */
  lemma FacebookOnlyBatchFails(db: Db, b: Batch)
    requires CountOf(b, Instagram) == Ok(0) && CountOf(b, Facebook).Ok? && CountOf(b, Facebook).value > 0
    requires GenerateScheduledPostsImported(db, b).1.Ok?
    ensures GenerateScheduledPosts(db, b) == (db, Err(UnitFailure(Facebook, 0, b.cid, UnboundLocalError("ContentRequest"))))
  {
    BatchUnitsBinding(b);
    ChannelsFacebookOnly(db, b, BatchUnits(b));
  }

  /** A unit post of any channel and any company. */
  predicate IsPostDoc(q: Path) {
    && |q| == 4 && q[2] == "posts"
    && (q[0] == PostsCollection(Instagram) || q[0] == PostsCollection(Facebook) || q[0] == PostsCollection(LinkedIn))
  }

  /** `after` differs from `before` only in unit posts, and loses none. */
  predicate OnlyPostsChanged(before: Db, after: Db) {
    && before.Keys <= after.Keys
    && (forall q :: q in before && !IsPostDoc(q) ==> after[q] == before[q])
    && (forall q :: q in after && q !in before ==> IsPostDoc(q))
  }

  lemma {:induction false} RunStepsOnlyPosts(k: nat, n: nat, p: Progress, ch: Channel, b: Batch, units: Units)
    requires k <= n && UnitsContract(units, b)
    ensures OnlyPostsChanged(p.db, RunDb(RunSteps(k, n, p, units(ch))))
    decreases n - k
  {
    if k < n {
      var u := units(ch)(k, p);
      assert StepOk(u, k, p, ch, b);
      if u.Running? {
        var q0 := PostPath(ch, b.cid, b.oracle(ch, k).postId);
        assert IsPostDoc(q0);
        RunStepsOnlyPosts(k + 1, n, u.p, ch, b, units);
      }
    }
  }

  lemma {:induction false} RunFromOnlyPosts(c: nat, db: Db, bound: bool, ids: seq<string>, counts: seq<nat>, b: Batch, units: Units)
    requires c <= 3 && |counts| == c && UnitsContract(units, b)
    ensures OnlyPostsChanged(db, RunFrom(c, db, bound, ids, counts, b, units).0)
    decreases 3 - c
  {
    if c < 3 {
      var ch := BatchOrder[c];
      if CountOf(b, ch).Ok? {
        RunStepsOnlyPosts(0, CountOf(b, ch).value, Progress(db, [], bound), ch, b, units);
      }
      var r := RunChannel(ch, db, bound, b, units(ch));
      if r.Running? {
        RunFromOnlyPosts(c + 1, r.p.db, r.p.bound, ids + r.p.ids, counts + [|r.p.ids|], b, units);
      }
    }
  }

  /** Whatever happens, a call changes nothing but unit posts and deletes
      nothing. */
  lemma GenerateOnlyPosts(db: Db, b: Batch, bound0: bool)
    ensures OnlyPostsChanged(db, Generate(db, b, bound0).0)
  {
    BatchUnitsContract(b);
    RunFromOnlyPosts(0, db, bound0, [], [], b, BatchUnits(b));
  }
}
