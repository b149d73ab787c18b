/** `generate_{linkedin,facebook,instagram}_planner`: look the company up,
    generate a post for the channel and normalise it into a planner record. */
module PlannerRoutes {
  import opened Values
  import opened Channels
  import opened Store
  import opened GptService

  /** The document of company `cid`. */
  function CompanyPath(cid: string): Path {
    ["companies", cid]
  }

  /** The prefix of the 500 detail; the Instagram handler's says "facebook". */
  function PlannerErrorPrefix(ch: Channel): string {
    match ch
    case LinkedIn => "Error creating linkedin planner: "
    case Facebook => "Error creating facebook planner: "
    case Instagram => "Error generating facebook planner: "
  }

  /** The keys of every planner record. */
  const PlannerKeys: set<string> :=
    {"channel", "image_prompt", "caption", "hashtags", "overlay_text", "company_id"}

  /** The planner record built from a generated post: the channel is
      lower-cased and stripped, absent fields default to "" or []. */
  function Normalise(gen: map<string, Value>, cid: string): (r: Result<Doc, Exc>)
    ensures r.Ok? ==> r.value.Keys == PlannerKeys
    ensures r.Ok? ==>
      && r.value["image_prompt"] == Get(gen, "image_prompt", Str(""))
      && r.value["caption"] == Get(gen, "caption", Str(""))
      && r.value["hashtags"] == Get(gen, "hashtags", List([]))
      && r.value["overlay_text"] == Get(gen, "overlay_text", Str(""))
      && r.value["company_id"] == Str(cid)
    ensures r.Ok? <==> Get(gen, "channel", Str("")).Str?
    ensures r.Ok? ==> r.value["channel"] == Str(Strip(Lower(Get(gen, "channel", Str("")).s)))
  {
    match Get(gen, "channel", Str(""))
    case Str(c) =>
      Ok(map[
        "channel" := Str(Strip(Lower(c))),
        "image_prompt" := Get(gen, "image_prompt", Str("")),
        "caption" := Get(gen, "caption", Str("")),
        "hashtags" := Get(gen, "hashtags", List([])),
        "overlay_text" := Get(gen, "overlay_text", Str("")),
        "company_id" := Str(cid)])
    case other => Err(NoAttribute(other, "lower"))
  }

  /** A planner route for channel `ch`: 404 for a missing company passes
      through, every other failure becomes a 500 naming the handler. */
  function Planner(ch: Channel, db: Db, cid: string, c: Completion, env: Env): (r: Result<Doc, Exc>)
    ensures CompanyPath(cid) !in db ==> r == Err(HttpException(404, "Company " + cid + " not found"))
    ensures r.Ok? ==> CompanyPath(cid) in db && r.value.Keys == PlannerKeys && r.value["company_id"] == Str(cid)
    ensures r.Ok? <==> CompanyPath(cid) in db && GeneratePost(ch, Dict(db[CompanyPath(cid)]), c, env).Ok?
    ensures CompanyPath(cid) in db && r.Err? ==>
      r == Err(HttpException(500, PlannerErrorPrefix(ch) + Text(GeneratePost(ch, Dict(db[CompanyPath(cid)]), c, env).error)))
  {
    if CompanyPath(cid) !in db then Err(HttpException(404, "Company " + cid + " not found"))
    else match GeneratePost(ch, Dict(db[CompanyPath(cid)]), c, env)
      case Err(e) => Err(HttpException(500, PlannerErrorPrefix(ch) + Text(e)))
      case Ok(gen) =>
        match Normalise(gen.fields, cid)
        case Ok(d) => Ok(d)
        case Err(e) => Err(HttpException(500, PlannerErrorPrefix(ch) + Text(e)))
  }

  lemma LowerTitle(ch: Channel)
    ensures Strip(Lower(Title(ch))) == Name(ch)
  {
    var l := Lower(Title(ch));
    assert l == Name(ch) by {
      match ch {
        case Instagram =>
          assert forall i :: 0 <= i < |l| ==> l[i] == "instagram"[i];
        case Facebook =>
          assert forall i :: 0 <= i < |l| ==> l[i] == "facebook"[i];
        case LinkedIn =>
          assert forall i :: 0 <= i < |l| ==> l[i] == "linkedin"[i];
      }
    }
    assert Stripped(l);
    StrippedFixed(l);
  }

  /** Because the generator only accepts its own channel, the planner's
      channel is always the route's lower-case channel name, and the
      record carries the generated caption, hashtags and overlay text. */
  lemma PlannerChannelIsRouteChannel(ch: Channel, db: Db, cid: string, c: Completion, env: Env)
    requires Planner(ch, db, cid, c, env).Ok?
    ensures Planner(ch, db, cid, c, env).value["channel"] == Str(Name(ch))
    ensures var gen := GeneratePost(ch, Dict(db[CompanyPath(cid)]), c, env).value.fields;
      && Planner(ch, db, cid, c, env).value["caption"] == gen["caption"]
      && Planner(ch, db, cid, c, env).value["hashtags"] == gen["hashtags"]
      && Planner(ch, db, cid, c, env).value["hashtags"].List?
      && Planner(ch, db, cid, c, env).value["overlay_text"] == gen["overlay_text"]
  {
    LowerTitle(ch);
  }
}
