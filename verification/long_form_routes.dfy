/** The newsletter and blog routes, which differ only in names and a few
    details (`Kind`): create a generated item, list a company's items
    through the Redis cache, read one, and schedule one. Items live at
    `channels/{kind}/companies/{company_id}/{kind}s/{id}` and the cached
    list under `{kind}_posts_{company_id}`. */
module LongFormRoutes {
  import opened Values
  import opened Store
  import opened ContentModel
  import opened RedisConfig
  import opened PlannerRoutes

  datatype Kind = Newsletter | Blog

  function KindName(k: Kind): string {
    match k
    case Newsletter => "newsletter"
    case Blog => "blog"
  }

  /** The capitalised name used in messages and model names. */
  function Title(k: Kind): string {
    match k
    case Newsletter => "Newsletter"
    case Blog => "Blog"
  }

  function ItemsOf(k: Kind, cid: string): Path {
    ["channels", KindName(k), "companies", cid, if k == Newsletter then "newsletters" else "blogs"]
  }

  function ItemPath(k: Kind, cid: string, id: string): Path {
    Child(ItemsOf(k, cid), id)
  }

  function IdField(k: Kind): string {
    if k == Newsletter then "newsletter_id" else "blog_id"
  }

  function CacheKey(k: Kind, cid: string): string {
    KindName(k) + "_posts_" + cid
  }

  /** The status a new item is stored with, and the one a listing assumes
      when a record has none: a newsletter starts as a draft, a blog as
      scheduled. */
  function InitialStatus(k: Kind): string {
    match k
    case Newsletter => "draft"
    case Blog => "scheduled"
  }

  /** Pydantic construction, not modelled: `response` builds the
      `{Kind}Response` from a stored `response` value (through `dict(...)`
      when it is not a dict), `document` builds the `{Kind}Document` from
      its keyword arguments and yields its dump; `None` when validation
      raises. */
  datatype Models = Models(response: Value -> Option<Value>, document: map<string, Value> -> Option<Value>)

  function NotFound(k: Kind): Exc {
    HttpException(404, Title(k) + " not found")
  }

  function DataMissing(k: Kind): Exc {
    HttpException(500, Title(k) + " data missing in document")
  }

  // --------------------------------------------------------------------- create

  /** The stored document of a new item. A newsletter's timestamps are
      server timestamps, a blog's the request time. */
  function NewDoc(k: Kind, cid: string, id: string, generated: map<string, Value>, now: DateTime): (r: Doc)
    ensures r.Keys == {"company_id", IdField(k), "created_at", "updated_at", "status", "response"}
    ensures r["status"] == Str(InitialStatus(k))
    ensures r["response"] == Dict(generated - {"token_usage"})
    ensures r["created_at"] == r["updated_at"] == (if k == Newsletter then ServerTimestamp else Time(now))
    ensures r["company_id"] == Str(cid) && r[IdField(k)] == Str(id)
  {
    var stamp := if k == Newsletter then ServerTimestamp else Time(now);
    map["company_id" := Str(cid), IdField(k) := Str(id), "created_at" := stamp, "updated_at" := stamp,
        "status" := Str(InitialStatus(k)), "response" := Dict(generated - {"token_usage"})]
  }

  /** The keyword arguments of the returned document: no schedule, and
      the model's full output (with `token_usage`) as the response. */
  function CreatedFields(k: Kind, cid: string, id: string, resp: Value, now: DateTime): (r: map<string, Value>)
    ensures {IdField(k), "company_id", "created_at", "updated_at", "scheduled_time", "scheduled_datetime", "status", "response"} <= r.Keys
    ensures r[IdField(k)] == Str(id) && r["status"] == Str(InitialStatus(k))
    ensures r["scheduled_time"] == Null && r["scheduled_datetime"] == Null
    ensures "month_id" in r ==> r["month_id"] == Null
  {
    var base := map[IdField(k) := Str(id), "company_id" := Str(cid), "created_at" := Time(now), "updated_at" := Time(now),
                    "scheduled_time" := Null, "scheduled_datetime" := Null, "status" := Str(InitialStatus(k)), "response" := resp];
    if k == Newsletter then base["month_id" := Null] else base
  }

  /** `create_newsletter` / `create_blog`: `generated` is what the content
      generator returned, `id` the fresh `uuid4().hex`. The document is
      written before the response is validated, so a response the model
      rejects still leaves it stored; the write commits at `commit`. The
      cache is not touched. */
  function Create(k: Kind, db: Db, cid: string, generated: Result<map<string, Value>, Exc>, id: string, now: DateTime, commit: DateTime, models: Models): (r: (Db, Result<Value, Exc>))
    ensures CompanyPath(cid) !in db ==> r == (db, Err(HttpException(404, "Company not found")))
    ensures CompanyPath(cid) in db && generated.Err? ==> r == (db, Err(generated.error))
    ensures CompanyPath(cid) in db && generated.Ok? ==> r.0 == Set(db, ItemPath(k, cid, id), NewDoc(k, cid, id, generated.value, now), commit)
    ensures r.1.Ok? ==>
      && CompanyPath(cid) in db && generated.Ok? && models.response(Dict(generated.value)).Some?
      && Some(r.1.value) == models.document(CreatedFields(k, cid, id, models.response(Dict(generated.value)).value, now))
  {
    if CompanyPath(cid) !in db then (db, Err(HttpException(404, "Company not found")))
    else if generated.Err? then (db, Err(generated.error))
    else
      var d := Set(db, ItemPath(k, cid, id), NewDoc(k, cid, id, generated.value, now), commit);
      match models.response(Dict(generated.value))
      case None => (d, Err(ValidationError(Title(k) + "Response")))
      case Some(resp) =>
        match models.document(CreatedFields(k, cid, id, resp, now))
        case None => (d, Err(ValidationError(Title(k) + "Document")))
        case Some(doc) => (d, Ok(doc))
  }

  /** A create adds exactly one document and changes no other. */
  lemma CreateAddsOne(k: Kind, db: Db, cid: string, generated: Result<map<string, Value>, Exc>, id: string, now: DateTime, commit: DateTime, models: Models)
    requires ItemPath(k, cid, id) !in db
    ensures var d := Create(k, db, cid, generated, id, now, commit, models).0;
      && d.Keys == db.Keys + (if CompanyPath(cid) in db && generated.Ok? then {ItemPath(k, cid, id)} else {})
      && forall q :: q in db ==> d[q] == db[q]
  {
  }

  /** The stored item carries real timestamps: a newsletter's are the
      commit time of its write, a blog's the request time. */
  lemma CreateStamps(k: Kind, db: Db, cid: string, generated: Result<map<string, Value>, Exc>, id: string, now: DateTime, commit: DateTime, models: Models)
    requires CompanyPath(cid) in db && generated.Ok?
    ensures var d := Create(k, db, cid, generated, id, now, commit, models).0;
      var stamp := Time(if k == Newsletter then commit else now);
      && ItemPath(k, cid, id) in d && Resolved(d[ItemPath(k, cid, id)])
      && d[ItemPath(k, cid, id)]["created_at"] == stamp && d[ItemPath(k, cid, id)]["updated_at"] == stamp
  {
  }

  // ----------------------------------------------------------------- listing

  /** The keyword arguments of a listed or read document. A newsletter
      takes `company_id` from the path, a blog from the stored record. */
  function RecordFields(k: Kind, cid: string, data: Doc, createdAt: Value, updatedAt: Value, resp: Value, status: string): (r: map<string, Value>)
    ensures r.Keys == {IdField(k), "company_id", "created_at", "updated_at", "scheduled_time", "scheduled_datetime", "status", "month_id", "response"}
    ensures r[IdField(k)] == Get(data, IdField(k), Null)
    ensures r["company_id"] == (if k == Newsletter then Str(cid) else Get(data, "company_id", Null))
    ensures r["status"] == Get(data, "status", Str(status))
    ensures r["response"] == resp
  {
    map[IdField(k) := Get(data, IdField(k), Null),
        "company_id" := (if k == Newsletter then Str(cid) else Get(data, "company_id", Null)),
        "created_at" := createdAt, "updated_at" := updatedAt,
        "scheduled_time" := Get(data, "scheduled_time", Null),
        "scheduled_datetime" := Get(data, "scheduled_datetime", Null),
        "status" := Get(data, "status", Str(status)),
        "month_id" := Get(data, "month_id", Null),
        "response" := resp]
  }

  /** One stored record as the listing converts it; `None` when it is
      skipped for a falsy response or a failed validation. */
  function DbEntry(k: Kind, cid: string, data: Doc, models: Models): (r: Option<Value>)
    ensures !Truthy(Get(data, "response", Null)) ==> r.None?
  {
    var respData := Get(data, "response", Null);
    if !Truthy(respData) then None
    else match models.response(respData)
      case None => None
      case Some(resp) =>
        models.document(RecordFields(k, cid, data, Get(data, "created_at", Null), Get(data, "updated_at", Null), resp, InitialStatus(k)))
  }

  /** A cached timestamp string is parsed back: after the 'Z' rewrite,
      then as is; `None` when both parses fail. Non-strings pass. */
  function Reparsed(env: Env, v: Value): (r: Option<Value>)
    ensures !v.Str? ==> r == Some(v)
    ensures v.Str? && ParseIso(env, v.s).Some? ==> r == Some(Time(ParseIso(env, v.s).value))
  {
    if !v.Str? then Some(v)
    else match ParseIso(env, v.s)
      case Some(d) => Some(Time(d))
      case None =>
        match env.parse(v.s)
        case Some(d) => Some(Time(d))
        case None => None
  }

  /** One cached entry as the listing converts it: non-dicts and falsy
      responses are skipped, and so is an entry whose timestamps do not
      parse. A `scheduled_time` is parsed only as a check: the document
      keeps the string. */
  function CachedEntry(k: Kind, cid: string, x: Value, env: Env, models: Models): (r: Option<Value>)
    ensures !x.Dict? ==> r.None?
    ensures x.Dict? && !Truthy(Get(x.fields, "response", Null)) ==> r.None?
  {
    if !x.Dict? then None
    else
      var data := x.fields;
      var respData := Get(data, "response", Null);
      if !Truthy(respData) then None
      else match models.response(respData)
        case None => None
        case Some(resp) =>
          var created := Reparsed(env, Get(data, "created_at", Null));
          var updated := Reparsed(env, Get(data, "updated_at", Null));
          var sched := Get(data, "scheduled_time", Null);
          var schedOk := !(Truthy(sched) && sched.Str?) || Reparsed(env, sched).Some?;
          if created.None? || updated.None? || !schedOk then None
          else models.document(RecordFields(k, cid, data, created.value, updated.value, resp, InitialStatus(k)))
  }

  /** The converted entries, in order, dropping those that convert to `None`. */
  function Kept<T>(xs: seq<T>, f: T -> Option<Value>): (r: seq<Value>)
    ensures |r| <= |xs|
    decreases |xs|
  {
    if xs == [] then [] else Kept(xs[..|xs| - 1], f) + (match f(xs[|xs| - 1]) case Some(v) => [v] case None => [])
  }

  /** Each kept value is the conversion of some input. */
  lemma {:induction false} KeptFrom<T>(xs: seq<T>, f: T -> Option<Value>, i: nat)
    requires i < |Kept(xs, f)|
    ensures exists j :: 0 <= j < |xs| && f(xs[j]) == Some(Kept(xs, f)[i])
    decreases |xs|
  {
    var init := xs[..|xs| - 1];
    var last := xs[|xs| - 1];
    var tail: seq<Value> := match f(last) case Some(v) => [v] case None => [];
    assert Kept(xs, f) == Kept(init, f) + tail;
    if i < |Kept(init, f)| {
      KeptFrom(init, f, i);
      var j :| 0 <= j < |init| && f(init[j]) == Some(Kept(init, f)[i]);
      assert xs[j] == init[j];
    } else {
      assert f(xs[|xs| - 1]) == Some(Kept(xs, f)[i]);
    }
  }

  /** When every input converts, all are kept, in order. */
  lemma {:induction false} KeptAll<T>(xs: seq<T>, f: T -> Option<Value>)
    requires forall j :: 0 <= j < |xs| ==> f(xs[j]).Some?
    ensures |Kept(xs, f)| == |xs|
    ensures forall j :: 0 <= j < |xs| ==> Kept(xs, f)[j] == f(xs[j]).value
    decreases |xs|
  {
    if xs != [] {
      var init := xs[..|xs| - 1];
      assert forall j :: 0 <= j < |init| ==> init[j] == xs[j];
      KeptAll(init, f);
      assert Kept(xs, f) == Kept(init, f) + [f(xs[|xs| - 1]).value];
    }
  }

  /** An input that does not convert adds nothing after what came before. */
  lemma KeptSkips<T>(xs: seq<T>, x: T, f: T -> Option<Value>)
    requires f(x).None?
    ensures Kept(xs + [x], f) == Kept(xs, f)
  {
    assert (xs + [x])[..|xs + [x]| - 1] == xs;
  }

  function DbEntryOf(k: Kind, cid: string, models: Models): ((string, Doc)) -> Option<Value> {
    (e: (string, Doc)) => DbEntry(k, cid, e.1, models)
  }

  function CachedEntryOf(k: Kind, cid: string, env: Env, models: Models): Value -> Option<Value> {
    (x: Value) => CachedEntry(k, cid, x, env, models)
  }

  /** The listing read from the store. */
  function DbItems(k: Kind, cid: string, snap: seq<(string, Doc)>, models: Models): seq<Value> {
    Kept(snap, DbEntryOf(k, cid, models))
  }

  /** `get_newsletters_by_company_id` / `get_blogs_by_company_id` over the
      stream `snap`: a non-empty cached list is served converted; otherwise
      the store's listing is returned and written back to the cache
      (whether that write succeeds or not). */
  function ListItems(k: Kind, db: Db, cid: string, snap: seq<(string, Doc)>, server: Server, cache: Cache, cfg: Config, env: Env, models: Models): (r: (Cache, seq<Value>))
    requires IsListing(db, ItemsOf(k, cid), snap)
    ensures var (c1, cached) := ListGetAllOn(server, cache, cfg, CacheKey(k, cid), env);
      && (cached != [] ==> r == (c1, Kept(cached, CachedEntryOf(k, cid, env, models))))
      && (cached == [] ==> r == (ListSetAllOn(server, c1, cfg, CacheKey(k, cid), DbItems(k, cid, snap, models), None, env).0, DbItems(k, cid, snap, models)))
  {
    var key := CacheKey(k, cid);
    var (c1, cached) := ListGetAllOn(server, cache, cfg, key, env);
    if cached != [] then (c1, Kept(cached, CachedEntryOf(k, cid, env, models)))
    else
      var results := DbItems(k, cid, snap, models);
      var (c2, _) := ListSetAllOn(server, c1, cfg, key, results, None, env);
      (c2, results)
  }

  /** While the cache holds a list, the listing does not depend on the
      store: an item created since is missing from it. */
  lemma CachedListIgnoresStore(k: Kind, db1: Db, db2: Db, cid: string, snap1: seq<(string, Doc)>, snap2: seq<(string, Doc)>,
                               server: Server, cache: Cache, cfg: Config, env: Env, models: Models)
    requires IsListing(db1, ItemsOf(k, cid), snap1) && IsListing(db2, ItemsOf(k, cid), snap2)
    requires ListGetAllOn(server, cache, cfg, CacheKey(k, cid), env).1 != []
    ensures ListItems(k, db1, cid, snap1, server, cache, cfg, env, models) == ListItems(k, db2, cid, snap2, server, cache, cfg, env, models)
  {
  }

  /** The documents of a listing read back from the cache convert to
      themselves: each JSON round trip decodes, and the cached-entry
      conversion (timestamps parsed back) gives the document again. */
  predicate CacheFaithful(k: Kind, cid: string, xs: seq<Value>, env: Env, models: Models) {
    forall i :: 0 <= i < |xs| ==>
      && env.decode(env.encode(xs[i])).Ok?
      && CachedEntry(k, cid, env.decode(env.encode(xs[i])).value, env, models) == Some(xs[i])
  }

  /** Read-through: against a working Redis, a listing that misses returns
      the store's items and caches them. The next listing, whatever the
      store then holds, returns the same items when there were any, and
      reads the store again when there were none. */
  lemma MissThenHit(k: Kind, db: Db, cid: string, snap: seq<(string, Doc)>, cache: Cache, cfg: Config, env: Env, models: Models,
                    db': Db, snap': seq<(string, Doc)>)
    requires Configured(cfg)
    requires IsListing(db, ItemsOf(k, cid), snap) && IsListing(db', ItemsOf(k, cid), snap')
    requires ListGetAllOn(ServeAll(), cache, cfg, CacheKey(k, cid), env).1 == []
    requires CacheFaithful(k, cid, DbItems(k, cid, snap, models), env, models)
    ensures var (c2, first) := ListItems(k, db, cid, snap, ServeAll(), cache, cfg, env, models);
      var next := ListItems(k, db', cid, snap', ServeAll(), c2, cfg, env, models).1;
      && first == DbItems(k, cid, snap, models)
      && (first != [] ==> next == first)
      && (first == [] ==> next == DbItems(k, cid, snap', models))
  {
    var xs := DbItems(k, cid, snap, models);
    var c2 := MissStores(k, db, cid, snap, cache, cfg, env, models);
    var ys := RoundTripped(xs, env);
    if xs != [] {
      CachedHit(k, db', cid, snap', c2, cfg, env, models, xs, ys);
    }
  }

  /** A listing that misses returns the store's items and leaves the cache
      holding them, each as its JSON round trip decodes. */
  lemma MissStores(k: Kind, db: Db, cid: string, snap: seq<(string, Doc)>, cache: Cache, cfg: Config, env: Env, models: Models)
    returns (c2: Cache)
    requires Configured(cfg)
    requires IsListing(db, ItemsOf(k, cid), snap)
    requires ListGetAllOn(ServeAll(), cache, cfg, CacheKey(k, cid), env).1 == []
    requires CacheFaithful(k, cid, DbItems(k, cid, snap, models), env, models)
    ensures ListItems(k, db, cid, snap, ServeAll(), cache, cfg, env, models) == (c2, DbItems(k, cid, snap, models))
    ensures ListGetAllOn(ServeAll(), c2, cfg, CacheKey(k, cid), env).1 == RoundTripped(DbItems(k, cid, snap, models), env)
  {
    var key := CacheKey(k, cid);
    var xs := DbItems(k, cid, snap, models);
    ListGetAllOnServeKeeps(cache, cfg, key, env);
    SetAllThenGetAllDecoded(cache, cfg, key, xs, None, env);
    c2 := ListItems(k, db, cid, snap, ServeAll(), cache, cfg, env, models).0;
  }

  /** A cache holding the round-tripped documents serves the documents. */
  lemma CachedHit(k: Kind, db: Db, cid: string, snap: seq<(string, Doc)>, cache: Cache, cfg: Config, env: Env, models: Models,
                  xs: seq<Value>, ys: seq<Value>)
    requires IsListing(db, ItemsOf(k, cid), snap)
    requires xs != [] && CacheFaithful(k, cid, xs, env, models)
    requires ys == RoundTripped(xs, env) && ListGetAllOn(ServeAll(), cache, cfg, CacheKey(k, cid), env).1 == ys
    ensures ListItems(k, db, cid, snap, ServeAll(), cache, cfg, env, models).1 == xs
  {
    KeptAll(ys, CachedEntryOf(k, cid, env, models));
    assert Kept(ys, CachedEntryOf(k, cid, env, models)) == xs;
  }

  // ------------------------------------------------------------- get by id

  /** `get_newsletter_by_id` / `get_blog_by_id`. */
  function GetById(k: Kind, db: Db, cid: string, id: string, models: Models): (r: Result<Value, Exc>)
    ensures ItemPath(k, cid, id) !in db ==> r == Err(NotFound(k))
    ensures ItemPath(k, cid, id) in db && !Truthy(Get(db[ItemPath(k, cid, id)], "response", Null)) ==> r == Err(DataMissing(k))
    ensures r.Ok? ==> ItemPath(k, cid, id) in db && Some(r.value) == DbEntry(k, cid, db[ItemPath(k, cid, id)], models)
    ensures ItemPath(k, cid, id) in db && DbEntry(k, cid, db[ItemPath(k, cid, id)], models).Some? ==>
      r == Ok(DbEntry(k, cid, db[ItemPath(k, cid, id)], models).value)
  {
    var p := ItemPath(k, cid, id);
    if p !in db then Err(NotFound(k))
    else
      var data := db[p];
      var respData := Get(data, "response", Null);
      if !Truthy(respData) then Err(DataMissing(k))
      else match models.response(respData)
        case None => Err(ValidationError(Title(k) + "Response"))
        case Some(resp) =>
          match models.document(RecordFields(k, cid, data, Get(data, "created_at", Null), Get(data, "updated_at", Null), resp, InitialStatus(k)))
          case None => Err(ValidationError(Title(k) + "Document"))
          case Some(doc) => Ok(doc)
  }

  // ---------------------------------------------------------------- schedule

  /** The fields a schedule writes, whatever the item's prior status. */
  function ScheduleFields(s: string, dt: DateTime, monthId: Option<int>): (r: Doc)
    ensures r.Keys == {"scheduled_time", "scheduled_datetime", "status", "updated_at", "month_id"}
    ensures r["status"] == Str("scheduled") && r["scheduled_time"] == Str(s) && r["scheduled_datetime"] == Time(dt)
    ensures r["month_id"] == (if monthId.Some? then Int(monthId.value) else Null)
    ensures r["updated_at"] == ServerTimestamp
  {
    map["scheduled_time" := Str(s), "scheduled_datetime" := Time(dt), "status" := Str("scheduled"),
        "updated_at" := ServerTimestamp, "month_id" := (if monthId.Some? then Int(monthId.value) else Null)]
  }

  /** `schedule_newsletter` / `schedule_blog`: the update is written before
      the response is checked, and the cached list is invalidated only
      once the response converts; the invalidation's outcome does not
      change the result. */
  function Schedule(k: Kind, db: Db, cid: string, id: string, s: string, monthId: Option<int>, commit: DateTime,
                    server: Server, cache: Cache, cfg: Config, env: Env, models: Models): (r: (Db, Cache, Result<Value, Exc>))
    ensures ItemPath(k, cid, id) !in db ==> r == (db, cache, Err(NotFound(k)))
    ensures ItemPath(k, cid, id) in db && ParseIso(env, s).None? ==> r == (db, cache, Err(BadIso(ZRewrite(s))))
    ensures ItemPath(k, cid, id) in db && ParseIso(env, s).Some? ==>
      r.0 == Update(db, ItemPath(k, cid, id), ScheduleFields(s, ParseIso(env, s).value, monthId), commit)
    ensures r.1 != cache ==> r.2.Ok? || r.2.error.ValidationError?
  {
    var p := ItemPath(k, cid, id);
    if p !in db then (db, cache, Err(NotFound(k)))
    else match ParseIso(env, s)
      case None => (db, cache, Err(BadIso(ZRewrite(s))))
      case Some(dt) => Rescheduled(k, cid, Update(db, p, ScheduleFields(s, dt, monthId), commit), p, server, cache, cfg, models)
  }

  /** After the update: the stored item's response is converted, the cached
      list invalidated, and the item converted for the reply. */
  function Rescheduled(k: Kind, cid: string, d: Db, p: Path, server: Server, cache: Cache, cfg: Config, models: Models): (r: (Db, Cache, Result<Value, Exc>))
    requires p in d
    ensures r.0 == d
    ensures r.1 != cache ==> r.2.Ok? || r.2.error.ValidationError?
  {
    var updated := d[p];
    var respData := Get(updated, "response", Null);
    if !Truthy(respData) then (d, cache, Err(DataMissing(k)))
    else match models.response(respData)
      case None => (d, cache, Err(ValidationError(Title(k) + "Response")))
      case Some(resp) =>
        var (c1, _) := DeleteOn(server, cache, cfg, CacheKey(k, cid));
        match models.document(RecordFields(k, cid, updated, Get(updated, "created_at", Null), Get(updated, "updated_at", Null), resp, "scheduled"))
        case None => (d, c1, Err(ValidationError(Title(k) + "Document")))
        case Some(doc) => (d, c1, Ok(doc))
  }

  /** Against a working Redis, a deletion removes the key. */
  lemma DeleteOnServeRemoves(cache: Cache, cfg: Config, key: string)
    requires Configured(cfg)
    ensures key !in DeleteOn(ServeAll(), cache, cfg, key).0
  {
    assert RedisDelete(cfg, key, Failed).0 == Some(DelKey(key));
  }

  /** A successful schedule leaves the item scheduled with the given time,
      its parsed datetime and month. */
  lemma ScheduleMarksScheduled(k: Kind, db: Db, cid: string, id: string, s: string, monthId: Option<int>, commit: DateTime,
                               server: Server, cache: Cache, cfg: Config, env: Env, models: Models)
    requires Schedule(k, db, cid, id, s, monthId, commit, server, cache, cfg, env, models).2.Ok?
    ensures var d := Schedule(k, db, cid, id, s, monthId, commit, server, cache, cfg, env, models).0;
      var p := ItemPath(k, cid, id);
      && p in db && ParseIso(env, s).Some? && p in d
      && d[p]["status"] == Str("scheduled") && d[p]["scheduled_time"] == Str(s)
      && d[p]["scheduled_datetime"] == Time(ParseIso(env, s).value)
      && d[p]["month_id"] == (if monthId.Some? then Int(monthId.value) else Null)
      && d[p]["updated_at"] == Time(commit)
  {
  }

  /** Against a working Redis, a successful schedule removes the
      company's cached list. */
  lemma ScheduleInvalidates(k: Kind, db: Db, cid: string, id: string, s: string, monthId: Option<int>, commit: DateTime,
                            cache: Cache, cfg: Config, env: Env, models: Models)
    requires Configured(cfg)
    requires Schedule(k, db, cid, id, s, monthId, commit, ServeAll(), cache, cfg, env, models).2.Ok?
    ensures CacheKey(k, cid) !in Schedule(k, db, cid, id, s, monthId, commit, ServeAll(), cache, cfg, env, models).1
  {
    var p := ItemPath(k, cid, id);
    assert p in db && ParseIso(env, s).Some?;
    var d := Update(db, p, ScheduleFields(s, ParseIso(env, s).value, monthId), commit);
    assert Schedule(k, db, cid, id, s, monthId, commit, ServeAll(), cache, cfg, env, models)
      == Rescheduled(k, cid, d, p, ServeAll(), cache, cfg, models);
    RescheduledInvalidates(k, cid, d, p, cache, cfg, models);
  }

  lemma RescheduledInvalidates(k: Kind, cid: string, d: Db, p: Path, cache: Cache, cfg: Config, models: Models)
    requires p in d && Configured(cfg)
    requires Rescheduled(k, cid, d, p, ServeAll(), cache, cfg, models).2.Ok?
    ensures CacheKey(k, cid) !in Rescheduled(k, cid, d, p, ServeAll(), cache, cfg, models).1
  {
    assert Rescheduled(k, cid, d, p, ServeAll(), cache, cfg, models).1 == DeleteOn(ServeAll(), cache, cfg, CacheKey(k, cid)).0;
    DeleteOnServeRemoves(cache, cfg, CacheKey(k, cid));
  }

  /** What the store ends up holding and what the route returns do not
      depend on the cache or on whether the invalidation succeeds. */
  lemma ScheduleIgnoresCache(k: Kind, db: Db, cid: string, id: string, s: string, monthId: Option<int>, commit: DateTime,
                             server1: Server, cache1: Cache, cfg1: Config, server2: Server, cache2: Cache, cfg2: Config,
                             env: Env, models: Models)
    ensures var r1 := Schedule(k, db, cid, id, s, monthId, commit, server1, cache1, cfg1, env, models);
      var r2 := Schedule(k, db, cid, id, s, monthId, commit, server2, cache2, cfg2, env, models);
      r1.0 == r2.0 && r1.2 == r2.2
  {
    var p := ItemPath(k, cid, id);
    if p in db && ParseIso(env, s).Some? {
      var d := Update(db, p, ScheduleFields(s, ParseIso(env, s).value, monthId), commit);
      assert Schedule(k, db, cid, id, s, monthId, commit, server1, cache1, cfg1, env, models)
        == Rescheduled(k, cid, d, p, server1, cache1, cfg1, models);
      assert Schedule(k, db, cid, id, s, monthId, commit, server2, cache2, cfg2, env, models)
        == Rescheduled(k, cid, d, p, server2, cache2, cfg2, models);
      RescheduledIgnoresCache(k, cid, d, p, server1, cache1, cfg1, server2, cache2, cfg2, models);
    }
  }

  lemma RescheduledIgnoresCache(k: Kind, cid: string, d: Db, p: Path,
                                server1: Server, cache1: Cache, cfg1: Config, server2: Server, cache2: Cache, cfg2: Config, models: Models)
    requires p in d
    ensures Rescheduled(k, cid, d, p, server1, cache1, cfg1, models).2 == Rescheduled(k, cid, d, p, server2, cache2, cfg2, models).2
  {
  }
}
