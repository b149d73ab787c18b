/** The theme endpoints: parsing the model's themes, normalising them to
    the twelve months, reading one month, regenerating one month, and
    generating all twelve. Month documents live at
    `themes/{company_id}/months/{month_id}`. */
module ThemeRoutes {
  import opened Values
  import opened Store
  import opened GptService
  import opened PlannerRoutes

  const MonthNames: seq<string> := [
    "January", "February", "March", "April", "May", "June",
    "July", "August", "September", "October", "November", "December"]

  function MonthsOf(cid: string): Path {
    ["themes", cid, "months"]
  }

  function MonthPath(cid: string, monthId: int): Path {
    Child(MonthsOf(cid), IntToString(monthId))
  }

  // ------------------------------------------------------ parse_themes_response

  /** `month[key] = v`, which only a dict accepts. */
  function ItemAssign(m: Value, key: string, v: Value): (r: Result<Value, Exc>)
    ensures r.Ok? <==> m.Dict?
    ensures r.Ok? ==> r.value == Dict(m.fields[key := v])
  {
    match m
    case Dict(f) => Ok(Dict(f[key := v]))
    case List(_) => Err(TypeError("list indices must be integers or slices, not str"))
    case _ => Err(TypeError("'" + TypeName(m) + "' object does not support item assignment"))
  }

  /** A month entry with a list under `themes`. */
  predicate HasThemeList(v: Value) {
    v.Dict? && "themes" in v.fields && v.fields["themes"].List?
  }

  /** The loop body: `themes` becomes `[]` unless it is already a list. */
  function FixEntry(m: Value): (r: Result<Value, Exc>)
    ensures r.Ok? <==> m.Dict?
    ensures r.Ok? ==> HasThemeList(r.value)
    ensures r.Ok? ==> forall k :: k in m.fields && k != "themes" ==> k in r.value.fields && r.value.fields[k] == m.fields[k]
    ensures r.Ok? ==> r.value.fields.Keys == m.fields.Keys + {"themes"}
    ensures HasThemeList(m) ==> r == Ok(m)
    ensures m.Dict? && !HasThemeList(m) ==> r.value.fields["themes"] == List([])
  {
    if !Iterable(m) then Err(NotIterable(m))
    else if Member("themes", m) then
      match PyIndex(m, "themes")
      case Err(e) => Err(e)
      case Ok(t) => if t.List? then Ok(m) else ItemAssign(m, "themes", List([]))
    else ItemAssign(m, "themes", List([]))
  }

  function FixEntries(xs: seq<Value>): (r: Result<seq<Value>, Exc>)
    ensures r.Ok? <==> forall i :: 0 <= i < |xs| ==> xs[i].Dict?
    ensures r.Ok? ==> |r.value| == |xs| && forall i :: 0 <= i < |xs| ==> FixEntry(xs[i]) == Ok(r.value[i])
    decreases |xs|
  {
    if xs == [] then Ok([])
    else match FixEntry(xs[0])
      case Err(e) => Err(e)
      case Ok(x) =>
        match FixEntries(xs[1..])
        case Err(e) => Err(e)
        case Ok(rest) => Ok([x] + rest)
  }

  /** `parse_themes_response`: a JSON decode failure becomes a `ValueError`
      quoting the first 200 characters; a list has each entry given a list
      under `themes`; an empty string or object is returned as is. */
  function ParseThemesResponse(env: Env, content: string): (r: Result<Value, Exc>)
    ensures env.decode(content).Err? ==> r == Err(ValueError("Model did not return valid JSON: " + Take(content, 200)))
    ensures r.Ok? ==> env.decode(content).Ok?
    ensures r.Ok? && env.decode(content).value.List? ==>
      && r.value.List? && |r.value.items| == |env.decode(content).value.items|
      && forall i :: 0 <= i < |r.value.items| ==> FixEntry(env.decode(content).value.items[i]) == Ok(r.value.items[i])
  {
    match env.decode(content)
    case Err(_) => Err(ValueError("Model did not return valid JSON: " + Take(content, 200)))
    case Ok(v) =>
      match v
      case List(xs) =>
        (match FixEntries(xs)
         case Err(e) => Err(e)
         case Ok(ys) => Ok(List(ys)))
      case Str(s) => if s == "" then Ok(v) else Err(TypeError("'str' object does not support item assignment"))
      case Dict(m) => if m == map[] then Ok(v) else Err(TypeError("'str' object does not support item assignment"))
      case _ => Err(TypeError("'" + TypeName(v) + "' object is not iterable"))
  }

  /** A decoded list of month objects always parses, each keeping its
      fields and gaining a list under `themes`. */
  lemma ParseThemesOfObjects(env: Env, content: string)
    requires env.decode(content).Ok? && env.decode(content).value.List?
    requires forall i :: 0 <= i < |env.decode(content).value.items| ==> env.decode(content).value.items[i].Dict?
    ensures var r := ParseThemesResponse(env, content);
      && r.Ok? && r.value.List?
      && forall i :: 0 <= i < |r.value.items| ==> HasThemeList(r.value.items[i])
  {
  }

  // ---------------------------------------------------------- ensure_all_months

  /** `m.get("month", "").lower() == name.lower()` holds and raises nothing. */
  predicate Matches(m: Value, name: string) {
    && m.Dict? && Get(m.fields, "month", Str("")).Str?
    && Lower(Get(m.fields, "month", Str("")).s) == Lower(name)
  }

  /** An entry the scan can test without raising. */
  predicate Scannable(m: Value) {
    m.Dict? && Get(m.fields, "month", Str("")).Str?
  }

  /** `j` is the first entry matching `name`. */
  predicate FirstMatch(items: seq<Value>, name: string, j: int) {
    0 <= j < |items| && Matches(items[j], name) && forall k :: 0 <= k < j ==> !Matches(items[k], name)
  }

  /** `next((m for m in themes if ...), None)`, as the position of the
      entry found: the scan stops at the first match and raises at the
      first entry it cannot test. */
  function FindMonth(items: seq<Value>, name: string): (r: Result<Option<nat>, Exc>)
    ensures (forall i :: 0 <= i < |items| ==> Scannable(items[i])) ==> r.Ok?
    ensures r.Ok? && r.value.Some? ==> FirstMatch(items, name, r.value.value)
    ensures r.Ok? && r.value.None? ==> forall j :: 0 <= j < |items| ==> !Matches(items[j], name)
    decreases |items|
  {
    if items == [] then Ok(None)
    else
      var m := items[0];
      if !m.Dict? then Err(NoAttribute(m, "get"))
      else
        var month := Get(m.fields, "month", Str(""));
        if !month.Str? then Err(NoAttribute(month, "lower"))
        else if Lower(month.s) == Lower(name) then Ok(Some(0))
        else
          match FindMonth(items[1..], name)
          case Err(e) => Err(e)
          case Ok(None) => Ok(None)
          case Ok(Some(j)) => Ok(Some(j + 1))
  }

  /** A dict naming month `i` (up to case) with `month_id` `i`. */
  predicate IsMonth(e: Value, i: int) {
    && 1 <= i <= 12 && e.Dict?
    && "month_id" in e.fields && e.fields["month_id"] == Int(i)
    && "month" in e.fields && e.fields["month"].Str? && Lower(e.fields["month"].s) == Lower(MonthNames[i - 1])
  }

  /** The placeholder for a month the model left out. */
  function DefaultMonth(i: nat): Value
    requires 1 <= i <= 12
  {
    Dict(map["month" := Str(MonthNames[i - 1]), "month_id" := Int(i), "themes" := List([])])
  }

  /** Entry `i` (1-based) of the result: the first entry matching the
      month's name with `month_id` set to `i`, or the placeholder when no
      entry matches. */
  predicate MonthEntry(items: seq<Value>, i: nat, e: Value)
    requires 1 <= i <= 12
  {
    && (forall j :: 0 <= j < |items| && FirstMatch(items, MonthNames[i - 1], j) ==> e == Dict(items[j].fields["month_id" := Int(i)]))
    && ((forall j :: 0 <= j < |items| ==> !Matches(items[j], MonthNames[i - 1])) ==> e == DefaultMonth(i))
  }

  /** One month of the result. */
  function MonthAt(items: seq<Value>, i: nat): (r: Result<Value, Exc>)
    requires 1 <= i <= 12
    ensures (forall j :: 0 <= j < |items| ==> Scannable(items[j])) ==> r.Ok?
    ensures r.Ok? ==> MonthEntry(items, i, r.value) && IsMonth(r.value, i)
  {
    var found := FindMonth(items, MonthNames[i - 1]);
    if found.Err? then Err(found.error)
    else if found.value.Some? then
      FirstMatchUniqueAll(items, MonthNames[i - 1], found.value.value);
      Ok(Dict(items[found.value.value].fields["month_id" := Int(i)]))
    else Ok(DefaultMonth(i))
  }

  lemma FirstMatchUniqueAll(items: seq<Value>, name: string, j: int)
    requires FirstMatch(items, name, j)
    ensures forall j' :: FirstMatch(items, name, j') ==> j' == j
  {
  }

  function MonthsFrom(items: seq<Value>, i: nat): (r: Result<seq<Value>, Exc>)
    requires 1 <= i <= 13
    ensures (forall j :: 0 <= j < |items| ==> Scannable(items[j])) ==> r.Ok?
    ensures r.Ok? ==> |r.value| == 13 - i
    ensures r.Ok? ==> forall k :: 0 <= k < |r.value| ==> MonthEntry(items, i + k, r.value[k]) && IsMonth(r.value[k], i + k)
    decreases 13 - i
  {
    if i == 13 then Ok([])
    else match MonthAt(items, i)
      case Err(e) => Err(e)
      case Ok(entry) =>
        match MonthsFrom(items, i + 1)
        case Err(e) => Err(e)
        case Ok(rest) => Ok([entry] + rest)
  }

  /** `ensure_all_months` on a list. */
  function EnsureAllMonths(items: seq<Value>): (r: Result<seq<Value>, Exc>)
    ensures (forall j :: 0 <= j < |items| ==> Scannable(items[j])) ==> r.Ok?
    ensures r.Ok? ==> |r.value| == 12
    ensures r.Ok? ==> forall k :: 0 <= k < 12 ==> MonthEntry(items, k + 1, r.value[k]) && IsMonth(r.value[k], k + 1)
  {
    MonthsFrom(items, 1)
  }

  /** `ensure_all_months` on whatever parsing produced: iterating a string
      or a dict yields strings, which have no `get`. */
  function EnsureAllMonthsOf(v: Value): (r: Result<seq<Value>, Exc>)
    ensures v.List? ==> r == EnsureAllMonths(v.items)
    ensures r.Ok? ==> |r.value| == 12 && forall k :: 0 <= k < 12 ==> IsMonth(r.value[k], k + 1)
  {
    match v
    case List(xs) => EnsureAllMonths(xs)
    case Str(s) => if s == "" then EnsureAllMonths([]) else Err(NoAttribute(Str(""), "get"))
    case Dict(m) => if m == map[] then EnsureAllMonths([]) else Err(NoAttribute(Str(""), "get"))
    case StrSet(e) => if e == {} then EnsureAllMonths([]) else Err(NoAttribute(Str(""), "get"))
    case _ => Err(TypeError("'" + TypeName(v) + "' object is not iterable"))
  }

  // ------------------------------------------------------------------ get_theme

  /** `get_theme`: the month document, or 404 for every failure, the
      handler's own 404 included, re-wrapped by the catch-all. */
  function GetTheme(db: Db, cid: string, monthId: int): (r: Result<Value, Exc>)
    ensures r.Ok? <==> MonthPath(cid, monthId) in db
    ensures r.Ok? ==> r.value == Dict(db[MonthPath(cid, monthId)])
    ensures r.Err? ==> r.error.HttpException? && r.error.status == 404
  {
    var m := IntToString(monthId);
    if MonthPath(cid, monthId) !in db then
      Err(HttpException(404, "Could not get theme for month " + m + ": "
        + Text(HttpException(404, "Theme for month " + m + " not found"))))
    else Ok(Dict(db[MonthPath(cid, monthId)]))
  }

  // ----------------------------------------------------- regenerate_month_theme

  const MonthRange: Exc := HttpException(400, "month_id must be between 0 and 11")

  function RegenerateFailure(e: Exc): Exc {
    HttpException(500, "Error regenerating theme: " + Text(e))
  }

  /** The fields stored for a regenerated month. */
  function MonthData(monthId: int, themes: Value): map<string, Value>
    requires 1 <= monthId <= 12
  {
    map["month_id" := Int(monthId), "month" := Str(MonthNames[monthId - 1]), "themes" := themes]
  }

  /** What the model's reply for the month is: `existing` is the stored
      document, if any, handed to the model as context. */
  function Regenerated(db: Db, cid: string, monthId: int, c: Completion, env: Env): Result<Value, Exc>
    requires CompanyPath(cid) in db
  {
    var path := MonthPath(cid, monthId);
    GenerateTheme(Dict(db[CompanyPath(cid)]), if path in db then Dict(db[path]) else Null, c, env)
  }

  /** `regenerate_month_theme`; `c` is the model's completion. The stored
      month is merged into any existing document by a write committed at
      `commit`. */
  function RegenerateMonthTheme(db: Db, cid: string, monthId: int, c: Completion, env: Env, commit: DateTime): (r: (Db, Result<Value, Exc>))
    ensures (monthId < 1 || monthId > 12) ==> r == (db, Err(MonthRange))
    ensures 1 <= monthId <= 12 && CompanyPath(cid) !in db ==>
      r == (db, Err(HttpException(404, "Company " + cid + " not found")))
    ensures r.1.Err? ==> r.0 == db
    ensures r.1.Err? && 1 <= monthId <= 12 && CompanyPath(cid) in db ==>
      r.1.error.HttpException? && r.1.error.status == 500
    ensures r.1.Ok? <==>
      && 1 <= monthId <= 12 && CompanyPath(cid) in db
      && Regenerated(db, cid, monthId, c, env).Ok?
      && Regenerated(db, cid, monthId, c, env).value.Dict?
      && "themes" in Regenerated(db, cid, monthId, c, env).value.fields
  {
    if monthId < 1 || monthId > 12 then (db, Err(MonthRange))
    else if CompanyPath(cid) !in db then (db, Err(HttpException(404, "Company " + cid + " not found")))
    else
      match Regenerated(db, cid, monthId, c, env)
      case Err(e) => (db, Err(RegenerateFailure(e)))
      case Ok(themeData) =>
        match PyIndex(themeData, "themes")
        case Err(e) => (db, Err(RegenerateFailure(e)))
        case Ok(themes) =>
          var data := MonthData(monthId, themes);
          (SetMerge(db, MonthPath(cid, monthId), data, commit), Ok(Dict(map["data" := Dict(data)])))
  }

  /** A successful regeneration stores the model's `themes` with the month's
      id and name, keeps the document's other fields, touches nothing
      else, and returns what it stored. */
  lemma RegenerateStoresMonth(db: Db, cid: string, monthId: int, c: Completion, env: Env, commit: DateTime)
    requires RegenerateMonthTheme(db, cid, monthId, c, env, commit).1.Ok?
    ensures 1 <= monthId <= 12 && CompanyPath(cid) in db
    ensures RegenerateMonthTheme(db, cid, monthId, c, env, commit) ==
      var data := MonthData(monthId, Regenerated(db, cid, monthId, c, env).value.fields["themes"]);
      (SetMerge(db, MonthPath(cid, monthId), data, commit), Ok(Dict(map["data" := Dict(data)])))
  {
    var t := Regenerated(db, cid, monthId, c, env).value;
    assert PyIndex(t, "themes") == Ok(t.fields["themes"]);
  }

  // -------------------------------------------------- generate_all_themes_route

  function GenerateAllFailure(e: Exc): Exc {
    HttpException(500, "Error generating themes: " + Text(e))
  }

  /** `set` (no merge) of each month under its `month_id`. */
  function WriteMonths(db: Db, cid: string, months: seq<Value>): (r: Db)
    requires forall k :: 0 <= k < |months| ==> months[k].Dict? && "month_id" in months[k].fields
    ensures forall q :: q in db ==> q in r
    ensures forall q :: q in r && !InCollection(q, MonthsOf(cid)) ==> q in db && r[q] == db[q]
    decreases |months|
  {
    if months == [] then db
    else
      var m := months[0];
      WriteMonths(db[Child(MonthsOf(cid), Show(m.fields["month_id"])) := m.fields], cid, months[1..])
  }

  /** The route's call of `generate_all_themes`: the company data in, the
      value the call evaluates to out. */
  type ThemesCall = map<string, Value> -> Result<Value, Exc>

  /** As written (line 111): `generate_all_themes` is `async` and is not
      awaited, so the call evaluates to a coroutine. */
  function UnawaitedThemes(): ThemesCall {
    (company: map<string, Value>) => Ok(Object("coroutine"))
  }

  /** Awaited: the generated value, with `lang` what `figure_out_language`
      returned and `c` the model's completion. */
  function AwaitedThemes(lang: Result<Value, Exc>, c: Completion, env: Env): ThemesCall {
    (company: map<string, Value>) => GenerateAllThemes(Dict(company), lang, c, env)
  }

  /** The dispatch on the call's value: a string is parsed, a list is used
      as is, anything else is rejected. */
  function ThemesOf(resp: Value, env: Env): (r: Result<Value, Exc>)
    ensures resp.List? ==> r == Ok(resp)
    ensures resp.Str? ==> r == ParseThemesResponse(env, resp.s)
    ensures !resp.List? && !resp.Str? ==> r == Err(InvalidResponse(resp))
  {
    if resp.Str? then ParseThemesResponse(env, resp.s)
    else if resp.List? then Ok(resp)
    else Err(InvalidResponse(resp))
  }

  /** The 500 for a reply that is neither a string nor a list, naming its
      class as `str(type(x))` does. */
  function InvalidResponse(resp: Value): Exc {
    HttpException(500, "Invalid GPT response: <class '" + TypeName(resp) + "'>")
  }

  /** `generate_all_themes_route`: every failure, the missing company
      included, becomes 500. */
  function GenerateAllThemesRoute(db: Db, cid: string, call: ThemesCall, env: Env): (r: (Db, Result<Value, Exc>))
    ensures r.1.Err? ==> r.0 == db && r.1.error.HttpException? && r.1.error.status == 500
    ensures CompanyPath(cid) !in db ==> r.1 == Err(GenerateAllFailure(HttpException(404, "Company " + cid + " not found")))
    ensures r.1.Ok? ==>
      && CompanyPath(cid) in db && call(db[CompanyPath(cid)]).Ok?
      && ThemesOf(call(db[CompanyPath(cid)]).value, env).Ok?
      && EnsureAllMonthsOf(ThemesOf(call(db[CompanyPath(cid)]).value, env).value).Ok?
      && var months := EnsureAllMonthsOf(ThemesOf(call(db[CompanyPath(cid)]).value, env).value).value;
         r.1.value == Dict(map["message" := Str("All themes generated successfully"), "data" := List(months)])
  {
    if CompanyPath(cid) !in db then (db, Err(GenerateAllFailure(HttpException(404, "Company " + cid + " not found"))))
    else match call(db[CompanyPath(cid)])
      case Err(e) => (db, Err(GenerateAllFailure(e)))
      case Ok(resp) =>
        match ThemesOf(resp, env)
        case Err(e) => (db, Err(GenerateAllFailure(e)))
        case Ok(themes) =>
          match EnsureAllMonthsOf(themes)
          case Err(e) => (db, Err(GenerateAllFailure(e)))
          case Ok(months) =>
            (WriteMonths(db, cid, months), Ok(Dict(map["message" := Str("All themes generated successfully"), "data" := List(months)])))
  }

  /** Months numbered consecutively from `off`. */
  predicate NumberedFrom(months: seq<Value>, off: nat) {
    forall k :: 0 <= k < |months| ==> IsNumbered(months[k], off + k)
  }

  predicate IsNumbered(m: Value, i: nat) {
    m.Dict? && "month_id" in m.fields && m.fields["month_id"] == Int(i)
  }

  /** Each numbered month lands in its own document. */
  lemma {:induction false} WriteMonthsAt(db: Db, cid: string, months: seq<Value>, off: nat)
    requires NumberedFrom(months, off)
    ensures forall i :: off <= i < off + |months| ==>
      MonthPath(cid, i) in WriteMonths(db, cid, months) && WriteMonths(db, cid, months)[MonthPath(cid, i)] == months[i - off].fields
    decreases |months|
  {
    if months != [] {
      var db' := db[MonthPath(cid, off) := months[0].fields];
      NumberedTail(months, off);
      assert Child(MonthsOf(cid), Show(months[0].fields["month_id"])) == MonthPath(cid, off);
      WriteMonthsAt(db', cid, months[1..], off + 1);
      WriteMonthsHead(db, cid, months, off);
      var r := WriteMonths(db, cid, months);
      forall i | off < i < off + |months|
        ensures MonthPath(cid, i) in r && r[MonthPath(cid, i)] == months[i - off].fields
      {
        assert months[1..][i - (off + 1)] == months[i - off];
      }
    }
  }

  lemma NumberedTail(months: seq<Value>, off: nat)
    requires NumberedFrom(months, off) && months != []
    ensures NumberedFrom(months[1..], off + 1)
    ensures months[0].fields["month_id"] == Int(off)
  {
    forall k | 0 <= k < |months| - 1 ensures IsNumbered(months[1..][k], off + 1 + k) {
      assert IsNumbered(months[k + 1], off + (k + 1));
    }
    assert IsNumbered(months[0], off + 0);
  }

  /** The first month is not overwritten by a later one. */
  lemma WriteMonthsHead(db: Db, cid: string, months: seq<Value>, off: nat)
    requires NumberedFrom(months, off) && months != []
    ensures var r := WriteMonths(db, cid, months);
      MonthPath(cid, off) in r && r[MonthPath(cid, off)] == months[0].fields
  {
    var db' := db[MonthPath(cid, off) := months[0].fields];
    NumberedTail(months, off);
    assert Child(MonthsOf(cid), Show(months[0].fields["month_id"])) == MonthPath(cid, off);
    assert WriteMonths(db, cid, months) == WriteMonths(db', cid, months[1..]);
    forall k | 0 <= k < |months[1..]|
      ensures Child(MonthsOf(cid), Show(months[1..][k].fields["month_id"])) != MonthPath(cid, off)
    {
      assert IsNumbered(months[1..][k], off + 1 + k);
      var p := Child(MonthsOf(cid), Show(months[1..][k].fields["month_id"]));
      assert p[3] == NatToString(off + 1 + k);
      if p == MonthPath(cid, off) {
        NatToStringInjective(off + 1 + k, off);
      }
    }
    WriteMonthsOutside(db', cid, months[1..], MonthPath(cid, off));
  }

  /** A document no month is written to keeps its contents. */
  lemma {:induction false} WriteMonthsOutside(db: Db, cid: string, months: seq<Value>, q: Path)
    requires forall k :: 0 <= k < |months| ==> months[k].Dict? && "month_id" in months[k].fields
    requires forall k :: 0 <= k < |months| ==> Child(MonthsOf(cid), Show(months[k].fields["month_id"])) != q
    ensures q in db ==> q in WriteMonths(db, cid, months) && WriteMonths(db, cid, months)[q] == db[q]
    decreases |months|
  {
    if months != [] {
      var m := months[0];
      WriteMonthsOutside(db[Child(MonthsOf(cid), Show(m.fields["month_id"])) := m.fields], cid, months[1..], q);
    }
  }

  /** As written, the route never saves anything: the un-awaited call is a
      coroutine, neither a string nor a list, and the resulting 500 is
      wrapped once more by the catch-all. */
  lemma UnawaitedThemesRouteFails(db: Db, cid: string, env: Env)
    ensures GenerateAllThemesRoute(db, cid, UnawaitedThemes(), env) ==
      if CompanyPath(cid) !in db then (db, Err(GenerateAllFailure(HttpException(404, "Company " + cid + " not found"))))
      else (db, Err(GenerateAllFailure(InvalidResponse(Object("coroutine")))))
  {
  }

  /** A success (possible once the call is awaited) saves all twelve
      months, each under its number, and changes no document outside the
      company's months. */
  lemma ThemesRouteSaves(db: Db, cid: string, call: ThemesCall, env: Env)
    requires GenerateAllThemesRoute(db, cid, call, env).1.Ok?
    ensures var (d, r) := GenerateAllThemesRoute(db, cid, call, env);
      var months := r.value.fields["data"].items;
      && |months| == 12
      && (forall k :: 0 <= k < 12 ==> IsMonth(months[k], k + 1))
      && (forall i :: 1 <= i <= 12 ==> MonthPath(cid, i) in d && d[MonthPath(cid, i)] == months[i - 1].fields)
      && (forall q :: q in db && !InCollection(q, MonthsOf(cid)) ==> d[q] == db[q])
  {
    var themes := ThemesOf(call(db[CompanyPath(cid)]).value, env).value;
    var months := EnsureAllMonthsOf(themes).value;
    assert NumberedFrom(months, 1) by {
      forall k | 0 <= k < |months| ensures IsNumbered(months[k], 1 + k) {
        assert IsMonth(months[k], k + 1);
      }
    }
    WriteMonthsAt(db, cid, months, 1);
  }

  /** Awaited, a reply that is a list of month objects with string
      `month` fields (or none) is saved. */
  lemma AwaitedThemesRouteSucceeds(db: Db, cid: string, lang: Result<Value, Exc>, c: Completion, env: Env)
    requires CompanyPath(cid) in db
    requires var g := GenerateAllThemes(Dict(db[CompanyPath(cid)]), lang, c, env);
      g.Ok? && g.value.List? && forall j :: 0 <= j < |g.value.items| ==> Scannable(g.value.items[j])
    ensures GenerateAllThemesRoute(db, cid, AwaitedThemes(lang, c, env), env).1.Ok?
  {
    var g := GenerateAllThemes(Dict(db[CompanyPath(cid)]), lang, c, env);
    assert AwaitedThemes(lang, c, env)(db[CompanyPath(cid)]) == g;
    assert EnsureAllMonths(g.value.items).Ok?;
  }
}
