/** The post routes: image generation forwarding, and saving, reading,
    listing and updating a channel's posts under
    `{channel}_posts/{company_id}/posts/{post_id}`. */
module ContentRoutes {
  import opened Values
  import opened Channels
  import opened Store
  import opened ContentModel

  /** The collection of company `cid`'s posts on channel `ch`. */
  function PostsOf(ch: Channel, cid: string): Path {
    [PostsCollection(ch), cid, "posts"]
  }

  /** The payload `generate_image_<ch>` hands the image controller. */
  function ImageRequest(ch: Channel, prompt: string, cid: string): (r: map<string, Value>)
    ensures r.Keys == {"image_prompt", "company_id", "channel"}
    ensures r["image_prompt"] == Str(prompt) && r["company_id"] == Str(cid) && r["channel"] == Str(Name(ch))
  {
    map["image_prompt" := Str(prompt), "company_id" := Str(cid), "channel" := Str(Name(ch))]
  }

  /** `generate_image_<ch>`: returns the controller's answer to
      `ImageRequest` unchanged. The controller turns every failure into an
      error response object instead of raising, so the route never fails. */
  function GenerateImage(ch: Channel, prompt: string, cid: string, controller: map<string, Value> -> Value): (r: Value)
    ensures r == controller(ImageRequest(ch, prompt, cid))
  {
    controller(ImageRequest(ch, prompt, cid))
  }

  /** A `ContentSaveRequest`: `None` is a field the client did not send and
      `Some(Null)` one sent as an explicit `null`. */
  datatype SaveRequest = SaveRequest(
    imageUrl: Option<Value>,
    caption: Option<Value>,
    hashtags: Option<Value>,
    scheduledTime: Option<Value>)

  predicate OptionalStr(f: Option<Value>) {
    f.None? || f.value.Null? || f.value.Str?
  }

  predicate StrList(v: Value) {
    v.List? && forall i | 0 <= i < |v.items| :: v.items[i].Str?
  }

  /** The request bodies FastAPI lets through to the handler: field types
      as declared and a `scheduled_time` its validator accepts. */
  predicate ValidSaveRequest(env: Env, req: SaveRequest) {
    && OptionalStr(req.imageUrl) && OptionalStr(req.caption)
    && (req.hashtags.None? || req.hashtags.value.Null? || StrList(req.hashtags.value))
    && OptionalStr(req.scheduledTime)
    && ValidateScheduledTime(env, ScheduledTimeOf(req)).Ok?
  }

  /** A field as the model holds it: unset reads as `None`. */
  function FieldValue(f: Option<Value>): Value {
    if f.Some? then f.value else Null
  }

  /** The request's `scheduled_time` as an optional string. */
  function ScheduledTimeOf(req: SaveRequest): Option<string> {
    if req.scheduledTime.Some? && req.scheduledTime.value.Str? then Some(req.scheduledTime.value.s) else None
  }

  /** `scheduled_datetime` as Firestore stores it. */
  function DatetimeValue(dt: Option<DateTime>): Value {
    if dt.Some? then Time(dt.value) else Null
  }

  /** The document a save route writes. */
  function SavedPost(ch: Channel, cid: string, req: SaveRequest, env: Env, now: DateTime): (d: Doc)
    ensures d.Keys == {"company_id", "channel", "image_url", "caption", "hashtags",
                       "scheduled_time", "scheduled_datetime", "created_at", "updated_at"}
    ensures d["channel"] == Str(Name(ch)) && d["company_id"] == Str(cid)
    ensures d["image_url"] == FieldValue(req.imageUrl) && d["caption"] == FieldValue(req.caption)
      && d["hashtags"] == FieldValue(req.hashtags) && d["scheduled_time"] == FieldValue(req.scheduledTime)
    ensures d["scheduled_datetime"] == DatetimeValue(ScheduledDatetime(env, ScheduledTimeOf(req)))
  {
    map[
      "company_id" := Str(cid),
      "channel" := Str(Name(ch)),
      "image_url" := FieldValue(req.imageUrl),
      "caption" := FieldValue(req.caption),
      "hashtags" := FieldValue(req.hashtags),
      "scheduled_time" := FieldValue(req.scheduledTime),
      "scheduled_datetime" := DatetimeValue(ScheduledDatetime(env, ScheduledTimeOf(req))),
      "created_at" := Time(now),
      "updated_at" := Time(now)]
  }

  /** `save_<ch>_post_to_db`: adds the post under the auto id `id`; a store
      failure `fault` becomes 400 and writes nothing. */
  function SavePost(db: Db, ch: Channel, cid: string, req: SaveRequest, env: Env, now: DateTime,
                    id: string, fault: Option<string>): (r: (Db, Result<Value, Exc>))
    requires ValidSaveRequest(env, req)
    ensures fault.Some? ==> r == (db, Err(HttpException(400, "Post couldn't be saved: " + fault.value)))
    ensures fault.None? ==>
      && r.0 == db[Child(PostsOf(ch, cid), id) := SavedPost(ch, cid, req, env, now)]
      && r.1.Ok? && r.1.value.Dict? && "post_id" in r.1.value.fields && "scheduled_for" in r.1.value.fields
      && r.1.value.fields["post_id"] == Str(id)
      && r.1.value.fields["scheduled_for"] == FieldValue(req.scheduledTime)
  {
    if fault.Some? then (db, Err(HttpException(400, "Post couldn't be saved: " + fault.value)))
    else
      var doc := SavedPost(ch, cid, req, env, now);
      (db[Child(PostsOf(ch, cid), id) := doc],
       Ok(Dict(map[
         "status" := Str("success"),
         "company_id" := Str(cid),
         "post_id" := Str(id),
         "scheduled_for" := FieldValue(req.scheduledTime)])))
  }

  /** A saved post's `scheduled_datetime` is the parse of its
      `scheduled_time` after the 'Z' rewrite, or `None` without one. */
  lemma SavedDatetimeMatchesTime(ch: Channel, cid: string, req: SaveRequest, env: Env, now: DateTime)
    requires ValidSaveRequest(env, req)
    ensures var d := SavedPost(ch, cid, req, env, now);
      (d["scheduled_time"].Str? && d["scheduled_time"].s != "" ==>
         d["scheduled_datetime"] == Time(env.parse(ZRewrite(d["scheduled_time"].s)).value))
      && (d["scheduled_time"] == Null ==> d["scheduled_datetime"] == Null)
  {
  }

  /** `get_<ch>_post`: the stored fields plus `post_id`, or 404. */
  function GetPost(db: Db, ch: Channel, cid: string, pid: string): (r: Result<Value, Exc>)
    ensures Child(PostsOf(ch, cid), pid) !in db ==> r == Err(HttpException(404, "Post ID " + pid + " not found"))
    ensures Child(PostsOf(ch, cid), pid) in db ==> r.Ok? && r.value.Dict? && "data" in r.value.fields
    ensures r.Ok? ==> var data := r.value.fields["data"];
      && data.Dict? && "post_id" in data.fields && data.fields["post_id"] == Str(pid)
      && forall k :: k in db[Child(PostsOf(ch, cid), pid)] && k != "post_id" ==>
           k in data.fields && data.fields[k] == db[Child(PostsOf(ch, cid), pid)][k]
  {
    var p := Child(PostsOf(ch, cid), pid);
    if p in db then
      Ok(Dict(map["status" := Str("success"), "data" := Dict(db[p]["post_id" := Str(pid)])]))
    else Err(HttpException(404, "Post ID " + pid + " not found"))
  }

  /** The listing entries: each stored post with its id added. */
  function WithIds(snap: seq<(string, Doc)>): (r: seq<Value>)
    ensures |r| == |snap|
    ensures forall i | 0 <= i < |snap| :: r[i] == Dict(snap[i].1["post_id" := Str(snap[i].0)])
  {
    seq(|snap|, i requires 0 <= i < |snap| => Dict(snap[i].1["post_id" := Str(snap[i].0)]))
  }

  /** `get_all_<ch>_posts` over the stream `snap`; a store failure is
      returned as an error body, never raised. */
  function GetAllPosts(db: Db, ch: Channel, cid: string, snap: seq<(string, Doc)>, fault: Option<string>): (r: Value)
    requires IsListing(db, PostsOf(ch, cid), snap)
    ensures fault.Some? ==> r == Dict(map["status" := Str("error"), "message" := Str("Failed to fetch posts: " + fault.value)])
    ensures fault.None? ==> r.Dict? && "data" in r.fields && r.fields["data"] == List(WithIds(snap))
    ensures fault.None? ==> ("message" in r.fields <==> snap == [])
  {
    if fault.Some? then Dict(map["status" := Str("error"), "message" := Str("Failed to fetch posts: " + fault.value)])
    else if |snap| > 0 then Dict(map["data" := List(WithIds(snap))])
    else Dict(map["data" := List([]), "message" := Str("No posts found for company " + cid)])
  }

  /** The listing holds one entry per stored post of that company and
      channel, each naming its own document. */
  lemma GetAllPostsComplete(db: Db, ch: Channel, cid: string, snap: seq<(string, Doc)>, pid: string)
    requires IsListing(db, PostsOf(ch, cid), snap)
    requires Child(PostsOf(ch, cid), pid) in db
    ensures exists i :: 0 <= i < |snap| && WithIds(snap)[i] == Dict(db[Child(PostsOf(ch, cid), pid)]["post_id" := Str(pid)])
  {
    var q := Child(PostsOf(ch, cid), pid);
    assert InCollection(q, PostsOf(ch, cid)) by {
      assert q[..3] == PostsOf(ch, cid);
    }
    var i :| 0 <= i < |snap| && Child(PostsOf(ch, cid), snap[i].0) == q;
    assert snap[i].0 == Child(PostsOf(ch, cid), snap[i].0)[3] == q[3] == pid;
    assert snap[i].1 == db[q];
    assert WithIds(snap)[i] == Dict(db[q]["post_id" := Str(pid)]);
  }

  /** `update_<ch>_post` turns an explicit `None` into `[]`, whatever the
      field's type. */
  function NoneToEmpty(v: Value): Value {
    if v.Null? then List([]) else v
  }

  /** The entry a field contributes to `model_dump(exclude_unset=True)`. */
  function Given(name: string, f: Option<Value>): map<string, Value> {
    if f.Some? then map[name := NoneToEmpty(f.value)] else map[]
  }

  /** The fields `update_<ch>_post` writes: those set in the request, with
      `None` replaced by `[]`, plus `updated_at`. */
  function UpdateData(req: SaveRequest): (r: Doc)
    ensures "updated_at" in r && r["updated_at"] == ServerTimestamp
    ensures "image_url" in r <==> req.imageUrl.Some?
    ensures "caption" in r <==> req.caption.Some?
    ensures "hashtags" in r <==> req.hashtags.Some?
    ensures "scheduled_time" in r <==> req.scheduledTime.Some?
    ensures req.imageUrl.Some? ==> r["image_url"] == NoneToEmpty(req.imageUrl.value)
    ensures req.caption.Some? ==> r["caption"] == NoneToEmpty(req.caption.value)
    ensures req.hashtags.Some? ==> r["hashtags"] == NoneToEmpty(req.hashtags.value)
    ensures req.scheduledTime.Some? ==> r["scheduled_time"] == NoneToEmpty(req.scheduledTime.value)
    ensures r.Keys <= {"image_url", "caption", "hashtags", "scheduled_time", "updated_at"}
  {
    Given("image_url", req.imageUrl) + Given("caption", req.caption) + Given("hashtags", req.hashtags)
      + Given("scheduled_time", req.scheduledTime) + map["updated_at" := ServerTimestamp]
  }

  /** The `updated_fields` list: the set fields in declaration order, then
      `updated_at`. */
  function UpdatedFieldNames(req: SaveRequest): seq<Value> {
    (if req.imageUrl.Some? then [Str("image_url")] else [])
    + (if req.caption.Some? then [Str("caption")] else [])
    + (if req.hashtags.Some? then [Str("hashtags")] else [])
    + (if req.scheduledTime.Some? then [Str("scheduled_time")] else [])
    + [Str("updated_at")]
  }

  /** `update_<ch>_post`: 404 for a missing post before any write, otherwise
      one update (there is always `updated_at` to write); a store failure
      `fault` becomes 500 and writes nothing. The update commits at `commit`. */
  function UpdatePost(db: Db, ch: Channel, cid: string, pid: string, req: SaveRequest, fault: Option<string>, commit: DateTime): (r: (Db, Result<Value, Exc>))
    ensures Child(PostsOf(ch, cid), pid) !in db ==>
      r == (db, Err(HttpException(404, "Post " + pid + " not found for company " + cid)))
    ensures r.1.Err? ==> r.0 == db
    ensures r.1.Ok? <==> Child(PostsOf(ch, cid), pid) in db && fault.None?
    ensures r.1.Ok? ==> r.0 == Update(db, Child(PostsOf(ch, cid), pid), UpdateData(req), commit)
  {
    var p := Child(PostsOf(ch, cid), pid);
    if p !in db then (db, Err(HttpException(404, "Post " + pid + " not found for company " + cid)))
    else if fault.Some? then (db, Err(HttpException(500, "Error updating post: " + fault.value)))
    else
      (Update(db, p, UpdateData(req), commit),
       Ok(Dict(map[
         "status" := Str("success"),
         "message" := Str("Post " + pid + " for Company " + cid + " updated"),
         "updated_fields" := List(UpdatedFieldNames(req))])))
  }

  /** An update changes only the fields the request set, always refreshes
      `updated_at`, and never touches `scheduled_datetime`: a new
      `scheduled_time` leaves the stored datetime stale. */
  lemma UpdateTouchesOnlySetFields(db: Db, ch: Channel, cid: string, pid: string, req: SaveRequest, commit: DateTime)
    requires Child(PostsOf(ch, cid), pid) in db
    ensures var p := Child(PostsOf(ch, cid), pid);
      var after := UpdatePost(db, ch, cid, pid, req, None, commit).0;
      && after[p]["updated_at"] == Time(commit)
      && (forall k :: k in db[p] && k !in UpdateData(req) ==> k in after[p] && after[p][k] == db[p][k])
      && ("scheduled_datetime" in db[p] ==> after[p]["scheduled_datetime"] == db[p]["scheduled_datetime"])
      && ("scheduled_datetime" !in db[p] ==> "scheduled_datetime" !in after[p])
      && (forall q :: q in db && q != p ==> after[q] == db[q])
  {
  }

  /** An explicit `null` caption is stored as an empty list, not `None`. */
  lemma UpdateNullBecomesEmptyList(db: Db, ch: Channel, cid: string, pid: string, req: SaveRequest, commit: DateTime)
    requires Child(PostsOf(ch, cid), pid) in db
    requires req.caption == Some(Null)
    ensures UpdatePost(db, ch, cid, pid, req, None, commit).0[Child(PostsOf(ch, cid), pid)]["caption"] == List([])
  {
  }
}
