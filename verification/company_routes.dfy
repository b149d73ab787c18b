/** The company routes: paging through companies, creating, reading,
    updating and deleting one. Companies live at `companies/{company_id}`. */
module CompanyRoutes {
  import opened Values
  import opened Store
  import opened Channels
  import opened PlannerRoutes
  import ContentRoutes
  import ThemeRoutes

  const Companies: Path := ["companies"]

  // -------------------------------------------------------------- get_companies

  /** The offset the query skips: `(page - 1) * limit`. */
  function Offset(page: int, limit: int): int {
    (page - 1) * limit
  }

  /** The documents `limit(limit).offset(offset)` selects from the
      collection's stream `snap`, for a non-negative offset and limit. */
  function Page(snap: seq<(string, Doc)>, page: int, limit: int): (r: seq<(string, Doc)>)
    requires Offset(page, limit) >= 0 && limit >= 0
    ensures |r| <= limit
    ensures Offset(page, limit) + |r| <= |snap| || |r| == 0
    ensures forall i :: 0 <= i < |r| ==> r[i] == snap[Offset(page, limit) + i]
    ensures |r| == (if Offset(page, limit) >= |snap| then 0
                    else if |snap| - Offset(page, limit) < limit then |snap| - Offset(page, limit) else limit)
  {
    var off := Offset(page, limit);
    if off >= |snap| then [] else snap[off..if off + limit < |snap| then off + limit else |snap|]
  }

  /** Pages 1 to `n` read in order are exactly the first `n * limit`
      documents of the stream (or all of them): paging neither skips nor
      repeats a company. */
  lemma {:induction false} PagesCover(snap: seq<(string, Doc)>, limit: nat, n: nat)
    ensures Pages(snap, limit, n) == snap[..if n * limit < |snap| then n * limit else |snap|]
  {
    if n > 0 {
      PagesCover(snap, limit, n - 1);
      var off := (n - 1) * limit;
      assert Offset(n, limit) == off && n * limit == off + limit by {
        StepOffset(n, limit);
      }
      var prev := if off < |snap| then off else |snap|;
      var end := if off + limit < |snap| then off + limit else |snap|;
      var p := Page(snap, n, limit);
      if off < |snap| {
        assert p == snap[prev..end];
      } else {
        assert p == [];
      }
      assert snap[..prev] + snap[prev..end] == snap[..end];
    }
  }

  lemma StepOffset(n: nat, limit: nat)
    requires n > 0
    ensures Offset(n, limit) == (n - 1) * limit && n * limit == (n - 1) * limit + limit
  {
  }

  /** Pages 1 to `n` concatenated. */
  function Pages(snap: seq<(string, Doc)>, limit: nat, n: nat): seq<(string, Doc)> {
    if n == 0 then [] else Pages(snap, limit, n - 1) + Page(snap, n, limit)
  }

  /** A listed company: its fields with `id` set to the document id. */
  function WithId(row: (string, Doc)): Value {
    Dict(row.1["id" := Str(row.0)])
  }

  /** `get_companies`: `rows` is what the query streamed, or the store's
      failure message (a negative offset or limit is one the store
      raises). */
  function GetCompanies(rows: Result<seq<(string, Doc)>, string>, page: int, limit: int): (r: Result<Value, Exc>)
    ensures rows.Err? ==> r == Err(HttpException(500, "Error fetching companies: " + rows.error))
    ensures rows.Ok? ==> r.Ok? && r.value.Dict? && r.value.fields.Keys == {"data", "page", "limit"}
    ensures rows.Ok? ==> r.value.fields["page"] == Int(page) && r.value.fields["limit"] == Int(limit)
    ensures rows.Ok? ==> var data := r.value.fields["data"];
      data.List? && |data.items| == |rows.value| && forall i :: 0 <= i < |rows.value| ==> data.items[i] == WithId(rows.value[i])
  {
    match rows
    case Err(msg) => Err(HttpException(500, "Error fetching companies: " + msg))
    case Ok(docs) =>
      var data := seq(|docs|, i requires 0 <= i < |docs| => WithId(docs[i]));
      Ok(Dict(map["data" := List(data), "page" := Int(page), "limit" := Int(limit)]))
  }

  /** The handler's `data` for the page the query selects from the
      collection's stream: at most `limit` stored companies, in stream
      order from the offset, each with its `id`. */
  lemma GetCompaniesPage(db: Db, snap: seq<(string, Doc)>, page: int, limit: int)
    requires IsListing(db, Companies, snap) && Offset(page, limit) >= 0 && limit >= 0
    ensures var data := GetCompanies(Ok(Page(snap, page, limit)), page, limit).value.fields["data"].items;
      && |data| <= limit
      && forall i :: 0 <= i < |data| ==>
           var id := snap[Offset(page, limit) + i].0;
           Child(Companies, id) in db && data[i] == Dict(db[Child(Companies, id)]["id" := Str(id)])
  {
  }

  /** The stream position `j` sits at place `j % limit` of page
      `j / limit + 1`. */
  lemma PageOf(j: nat, limit: int) returns (page: int, i: int)
    requires limit > 0
    ensures page == j / limit + 1 && i == j % limit
    ensures page >= 1 && 0 <= i < limit && Offset(page, limit) == j - i
  {
    page, i := j / limit + 1, j % limit;
  }

  /** Stored company `q` is entry `i` of the `data` the handler returns for
      page `page`, with its document id as `id`. */
  predicate ListedAt(db: Db, snap: seq<(string, Doc)>, limit: int, page: int, i: int, q: Path) {
    && q in db && Offset(page, limit) >= 0 && limit >= 0
    && var data := GetCompanies(Ok(Page(snap, page, limit)), page, limit).value.fields["data"].items;
    && 0 <= i < |data|
    && var id := snap[Offset(page, limit) + i].0;
    && q == Child(Companies, id)
    && data[i] == Dict(db[q]["id" := Str(id)])
  }

  /** Entry `i` of a page is the stored company at that stream position. */
  lemma EntryListed(db: Db, snap: seq<(string, Doc)>, page: int, limit: int, i: int)
    requires IsListing(db, Companies, snap) && Offset(page, limit) >= 0 && limit >= 0
    requires 0 <= i < |Page(snap, page, limit)|
    ensures ListedAt(db, snap, limit, page, i, Child(Companies, snap[Offset(page, limit) + i].0))
  {
    GetCompaniesPage(db, snap, page, limit);
  }

  /** No stored company is out of reach: with a positive limit, each one is
      listed, with its `id`, on the page its stream position falls in. */
  lemma EveryCompanyListed(db: Db, snap: seq<(string, Doc)>, limit: int, q: Path)
    requires IsListing(db, Companies, snap) && limit > 0
    requires q in db && InCollection(q, Companies)
    ensures exists page, i :: ListedAt(db, snap, limit, page, i, q)
  {
    var j :| 0 <= j < |snap| && Child(Companies, snap[j].0) == q;
    var page, i := PageOf(j, limit);
    assert |Page(snap, page, limit)| > i;
    EntryListed(db, snap, page, limit, i);
  }

  // ------------------------------------------------------------ create_company

  /** The attributes `CompanyRequest` declares. */
  const RequestFields: set<string> := {
    "company_name", "company_url", "company_info", "address", "favicon_url", "font_typography",
    "industry", "keywords", "logo_url", "target_group", "theme_colors"}

  /** Request attributes annotated `Optional[List[str]]`. */
  const ListFields: set<string> := {"font_typography", "keywords", "theme_colors"}

  /** A request body as the handler receives it: the fields the client
      set (`model_dump(exclude_unset=True)`), each `None` or a value of its
      declared type. */
  predicate WellFormedRequest(req: map<string, Value>) {
    && req.Keys <= RequestFields
    && forall k :: k in req ==> req[k].Null? || (if k in ListFields then ContentRoutes.StrList(req[k]) else req[k].Str?)
  }

  /** An existing company already has this exact name. */
  predicate NameTaken(db: Db, name: Value) {
    exists q | q in db :: InCollection(q, Companies) && Get(db[q], "company_name", Null) == name
  }

  /** The first attribute the handler reads that `CompanyRequest` lacks. */
  const MissingUrl: Exc := NoAttribute(Object("CompanyRequest"), "url")

  /** `create_company`: a missing or blank name, then a taken name, give
      400; any request that passes both reads `company.url`, which the
      model does not declare, and ends in 500 before anything is written. */
  function CreateCompany(db: Db, req: map<string, Value>): (r: Result<Value, Exc>)
    requires WellFormedRequest(req)
    ensures var name := Get(req, "company_name", Null);
      && ((!name.Str? || Strip(name.s) == "") ==> r == Err(HttpException(400, "Company name is required")))
      && (name.Str? && Strip(name.s) != "" && NameTaken(db, name) ==>
            r == Err(HttpException(400, "Company with name '" + name.s + "' already exists")))
      && (name.Str? && Strip(name.s) != "" && !NameTaken(db, name) ==>
            r == Err(HttpException(500, "Error creating company: " + Text(MissingUrl))))
  {
    var name := Get(req, "company_name", Null);
    if !Truthy(name) || !name.Str? || Strip(name.s) == "" then Err(HttpException(400, "Company name is required"))
    else if NameTaken(db, name) then Err(HttpException(400, "Company with name '" + name.s + "' already exists"))
    else Err(HttpException(500, "Error creating company: " + Text(MissingUrl)))
  }

  /** As written, no request creates a company. */
  lemma CreateCompanyNeverCreates(db: Db, req: map<string, Value>)
    requires WellFormedRequest(req)
    ensures CreateCompany(db, req).Err?
    ensures CreateCompany(db, req).error.HttpException?
    ensures CreateCompany(db, req).error.status == 400 <==>
      var name := Get(req, "company_name", Null);
      !name.Str? || Strip(name.s) == "" || NameTaken(db, name)
  {
  }

  // ---------------------------------------------------------------- get_company

  function CompanyNotFound(cid: string): Exc {
    HttpException(404, "Company " + cid + " not found")
  }

  /** `get_company`: the company with `company_id` added; the handler's
      own 404 is caught by its catch-all and re-raised as 500. */
  function GetCompany(db: Db, cid: string): (r: Result<Value, Exc>)
    ensures r.Ok? <==> CompanyPath(cid) in db
    ensures r.Ok? ==> r.value == Dict(db[CompanyPath(cid)]["company_id" := Str(cid)])
    ensures r.Err? ==> r.error == HttpException(500, "Error fetching company: " + Text(CompanyNotFound(cid)))
  {
    if CompanyPath(cid) !in db then Err(HttpException(500, "Error fetching company: " + Text(CompanyNotFound(cid))))
    else Ok(Dict(db[CompanyPath(cid)]["company_id" := Str(cid)]))
  }

  // ------------------------------------------------------------- update_company

  /** The names the update loop normalises. Several are not attributes of
      `CompanyRequest` (and `fonts_typography` misspells its
      `font_typography`), so they never occur in a request. */
  const NormalisedFields: set<string> := {
    "fonts_typography", "keywords", "theme_colors", "products", "product_categories", "tone_analysis",
    "target_group", "industry", "composition_and_style", "environment_settings", "image_types_and_animation",
    "keywords_for_ai_image_generation", "lighting_and_color_tone", "subjects_and_people", "technology_elements",
    "theme_and_atmosphere", "company_name", "url", "company_info", "address", "favicon_url", "logo_url", "matched_fonts"}

  /** An explicit `None` on a normalised field becomes `[]` for a list
      attribute and `""` otherwise; other values pass unchanged. */
  function Normalised(k: string, v: Value): Value {
    if k in NormalisedFields && v == Null then
      if k in RequestFields && k in ListFields then List([]) else Str("")
    else v
  }

  /** The fields `update_company` writes. */
  function UpdateData(req: map<string, Value>): (r: Doc)
    requires req.Keys <= RequestFields
    ensures r.Keys == req.Keys + {"updated_at"}
    ensures r["updated_at"] == ServerTimestamp
    ensures forall k :: k in req && req[k] != Null ==> r[k] == req[k]
    ensures forall k :: k in req && req[k] == Null && k in {"keywords", "theme_colors"} ==> r[k] == List([])
    ensures forall k :: k in req && req[k] == Null && k !in {"keywords", "theme_colors", "company_url", "font_typography"} ==> r[k] == Str("")
    ensures forall k :: k in req && req[k] == Null && k in {"company_url", "font_typography"} ==> r[k] == Null
  {
    (map k | k in req :: Normalised(k, req[k]))["updated_at" := ServerTimestamp]
  }

  /** What the un-awaitable call with one argument too many raises. */
  const ThemeCallArity: Exc := TypeError("generate_all_themes_route() takes 1 positional argument but 2 were given")

  /** `update_company`: 404 for a missing company; otherwise the update is
      written (it always holds `updated_at`) and the following call of
      the theme route with two arguments raises, giving 500. The write
      commits at `commit`. */
  function UpdateCompany(db: Db, cid: string, req: map<string, Value>, commit: DateTime): (r: (Db, Result<Value, Exc>))
    requires WellFormedRequest(req)
    ensures CompanyPath(cid) !in db ==> r == (db, Err(CompanyNotFound(cid)))
    ensures CompanyPath(cid) in db ==>
      r == (Update(db, CompanyPath(cid), UpdateData(req), commit), Err(HttpException(500, "Error updating company: " + Text(ThemeCallArity))))
  {
    if CompanyPath(cid) !in db then (db, Err(CompanyNotFound(cid)))
    else (Update(db, CompanyPath(cid), UpdateData(req), commit), Err(HttpException(500, "Error updating company: " + Text(ThemeCallArity))))
  }

  /** An update of an existing company changes its fields as requested,
      keeps the fields not sent, and reports failure all the same. */
  lemma UpdateWritesThenFails(db: Db, cid: string, req: map<string, Value>, commit: DateTime)
    requires WellFormedRequest(req) && CompanyPath(cid) in db
    ensures var (d, r) := UpdateCompany(db, cid, req, commit);
      var p := CompanyPath(cid);
      && r.Err? && r.error.HttpException? && r.error.status == 500
      && d[p]["updated_at"] == Time(commit)
      && (forall k :: k in req && req[k] != Null ==> d[p][k] == req[k])
      && (forall k :: k in db[p] && k !in req && k != "updated_at" ==> k in d[p] && d[p][k] == db[p][k])
      && (forall q :: q in db && q != p ==> d[q] == db[q])
  {
  }

  // ------------------------------------------------------------- delete_company

  /** The documents `delete_company` removes: the company's posts on each
      channel, its theme months, and the company itself. */
  predicate Doomed(q: Path, cid: string) {
    || InCollection(q, ContentRoutes.PostsOf(Facebook, cid))
    || InCollection(q, ContentRoutes.PostsOf(LinkedIn, cid))
    || InCollection(q, ContentRoutes.PostsOf(Instagram, cid))
    || InCollection(q, ThemeRoutes.MonthsOf(cid))
    || q == CompanyPath(cid)
  }

  function DeleteCompanyMessage(cid: string): Value {
    Dict(map["status" := Str("success"), "message" := Str("Company " + cid + " deleted")])
  }

  /** `delete_company`: Facebook, LinkedIn and Instagram posts, then the
      theme months, then the company; a missing company's 404 is
      re-raised as 500. */
  function DeleteCompany(db: Db, cid: string): (r: (Db, Result<Value, Exc>))
    ensures CompanyPath(cid) !in db ==> r == (db, Err(HttpException(500, "Error deleting company: " + Text(CompanyNotFound(cid)))))
    ensures CompanyPath(cid) in db ==> r.1 == Ok(DeleteCompanyMessage(cid))
  {
    if CompanyPath(cid) !in db then (db, Err(HttpException(500, "Error deleting company: " + Text(CompanyNotFound(cid)))))
    else
      var d1 := DeleteCollection(db, ContentRoutes.PostsOf(Facebook, cid));
      var d2 := DeleteCollection(d1, ContentRoutes.PostsOf(LinkedIn, cid));
      var d3 := DeleteCollection(d2, ContentRoutes.PostsOf(Instagram, cid));
      var d4 := DeleteCollection(d3, ThemeRoutes.MonthsOf(cid));
      (d4 - {CompanyPath(cid)}, Ok(DeleteCompanyMessage(cid)))
  }

  /** A deletion removes exactly the company's posts, theme months and
      record, and leaves every other document as it was. */
  lemma DeleteCompanyScope(db: Db, cid: string)
    requires CompanyPath(cid) in db
    ensures var d := DeleteCompany(db, cid).0;
      && (forall q :: q in d <==> q in db && !Doomed(q, cid))
      && (forall q :: q in d ==> d[q] == db[q])
  {
  }

  /** Newsletters, blogs and other companies' documents survive. */
  lemma DeleteCompanySparesOthers(db: Db, cid: string, q: Path)
    requires CompanyPath(cid) in db && q in db
    requires |q| > 0 && (q[0] == "channels" || (q[0] == "companies" && q != CompanyPath(cid)))
    ensures q in DeleteCompany(db, cid).0 && DeleteCompany(db, cid).0[q] == db[q]
  {
    assert !Doomed(q, cid) by {
      var colls := [ContentRoutes.PostsOf(Facebook, cid), ContentRoutes.PostsOf(LinkedIn, cid),
                    ContentRoutes.PostsOf(Instagram, cid), ThemeRoutes.MonthsOf(cid)];
      forall i | 0 <= i < |colls| ensures !InCollection(q, colls[i]) {
        assert colls[i][0] != q[0];
        assert |q| > |colls[i]| ==> q[..|colls[i]|][0] == q[0];
      }
      assert !InCollection(q, colls[0]) && !InCollection(q, colls[1]) && !InCollection(q, colls[2]) && !InCollection(q, colls[3]);
    }
    DeleteCompanyScope(db, cid);
  }
}
