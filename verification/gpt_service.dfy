/** The deterministic parts of the OpenAI service: company-data validation,
    the post validator behind `generate_*_post`, the two code-fence
    cleaners, `generate_theme`, `generate_all_themes`, `generate_all_posts`
    and `normalize_field`. The chat completions themselves are oracles. */
module GptService {
  import opened Values
  import opened Channels

  /** What one chat-completion call produced: the message text, or the
      error the client raised. */
  datatype Completion = Reply(text: string) | CallFailed(msg: string)

  /** The keys `_validate_company_data` requires, in the order it checks them. */
  const CompanyRequired: seq<string> :=
    ["address", "company_info", "company_name", "industry", "keywords", "target_group"]

  /** The keys the post prompts read from the company, in prompt order. */
  const PostPromptKeys: seq<string> :=
    ["company_name", "industry", "company_info", "address", "target_group",
     "keywords", "tone_analysis", "products", "product_categories"]

  /** The fields a generated post must carry, in the order they are checked. */
  const PostFields: seq<string> := ["channel", "caption", "hashtags", "overlay_text"]

  /** The keys `generate_theme` reads from the company, in order. */
  const ThemeKeys: seq<string> :=
    ["address", "company_info", "industry", "keywords", "target_group",
     "theme_colors", "tone_analysis", "products", "product_categories"]

  /** The keys `generate_all_themes` reads after `address`, in order. */
  const AllThemesKeys: seq<string> :=
    ["company_info", "company_name", "industry", "keywords", "target_group",
     "theme_colors", "tone_analysis", "products", "product_categories"]

  const Fence: string := "```"
  const JsonFence: string := "```json"

  // ------------------------------------------------------------ presence checks

  /** Scans `fields` from index `from` with `field not in v` and reports the
      index of the first absent one. */
  function FirstAbsent(v: Value, fields: seq<string>, from: nat): (r: Option<nat>)
    requires Iterable(v) && from <= |fields|
    ensures r.Some? ==>
      from <= r.value < |fields| && !Member(fields[r.value], v)
      && forall j :: from <= j < r.value ==> Member(fields[j], v)
    ensures r.None? <==> forall j :: from <= j < |fields| ==> Member(fields[j], v)
    decreases |fields| - from
  {
    if from == |fields| then None
    else if !Member(fields[from], v) then Some(from)
    else FirstAbsent(v, fields, from + 1)
  }

  /** `_validate_company_data`: rejects falsy input, then names the first of
      the six required keys that is absent. Values are not inspected. */
  function ValidateCompanyData(company: Value): (r: Option<Exc>)
    ensures !Truthy(company) ==> r == Some(ValueError("company_data is a required parameter"))
    ensures r.None? <==>
      Truthy(company) && Iterable(company) && forall f :: f in CompanyRequired ==> Member(f, company)
    ensures Truthy(company) && company.Dict? && r.Some? ==>
      exists i :: 0 <= i < |CompanyRequired|
        && r == Some(ValueError("Missing required field in company_data: " + CompanyRequired[i]))
        && CompanyRequired[i] !in company.fields
        && forall j :: 0 <= j < i ==> CompanyRequired[j] in company.fields
  {
    if !Truthy(company) then Some(ValueError("company_data is a required parameter"))
    else if !Iterable(company) then Some(NotIterable(company))
    else match FirstAbsent(company, CompanyRequired, 0)
      case None =>
        assert forall f :: f in CompanyRequired ==> exists j :: 0 <= j < |CompanyRequired| && CompanyRequired[j] == f;
        None
      case Some(i) =>
        Some(ValueError("Missing required field in company_data: " + CompanyRequired[i]))
  }

  /** Only key presence is checked: any non-empty dict holding the six keys
      passes, whatever their values. */
  lemma ValidationChecksPresenceOnly(m: map<string, Value>)
    requires forall f :: f in CompanyRequired ==> f in m
    ensures ValidateCompanyData(Dict(m)).None?
  {
    assert "address" in m;
  }

  // ------------------------------------------------------------ code fences

  /** `content.replace('```', '')`. */
  function RemoveFences(s: string): string {
    ReplaceAll(s, Fence, "")
  }

  /** The cleaning `_generate_single_post` applies to the model's text:
      strip, drop every "```json", then every "```", strip again. */
  function CodeFenceCleaned(text: string): string {
    Strip(RemoveFences(ReplaceAll(Strip(text), JsonFence, "")))
  }

  lemma RemoveUnfold(s: string)
    requires |s| > 0 && !StartsWith(s, Fence)
    ensures RemoveFences(s) == [s[0]] + RemoveFences(s[1..])
  {
    if |s| < 3 {
      assert s == [s[0]] + s[1..];
    }
  }

  lemma RemoveKeepsHead(s: string)
    requires |s| > 0 && s[0] != '`'
    ensures |RemoveFences(s)| > 0 && RemoveFences(s)[0] == s[0]
  {
    if |s| >= 3 {
      assert s[..3][0] == s[0];
    }
    RemoveUnfold(s);
  }

  /** Removing fences cannot make the result start with one: a lone or
      doubled backtick at the front is followed by a non-backtick. */
  lemma NotAtZero(s: string)
    requires |s| >= 3 && !StartsWith(s, Fence)
    ensures !OccursAt(RemoveFences(s), Fence, 0)
  {
    RemoveUnfold(s);
    var r := RemoveFences(s);
    var t := s[1..];
    if s[0] == '`' && |r| >= 3 {
      assert s[..3] == [s[0], s[1], s[2]];
      if t[0] != '`' {
        RemoveKeepsHead(t);
        assert r[1] != '`';
      } else {
        assert t[1] != '`';
        assert !StartsWith(t, Fence) by {
          if |t| >= 3 { assert t[..3][1] == t[1]; }
        }
        RemoveUnfold(t);
        RemoveKeepsHead(t[1..]);
        assert r[2] != '`';
      }
      assert r[..3] != Fence;
    } else if |r| >= 3 {
      assert r[..3][0] == s[0];
    }
  }

  /** After `replace('```', '')` no "```" is left, even where removing one
      fence brings backticks together. */
  lemma {:induction false} RemoveFencesLeavesNone(s: string)
    ensures !Contains(RemoveFences(s), Fence)
    decreases |s|
  {
    var r := RemoveFences(s);
    if |s| < 3 {
      assert r == s;
    } else if StartsWith(s, Fence) {
      RemoveFencesLeavesNone(s[3..]);
      assert r == RemoveFences(s[3..]);
    } else {
      NotAtZero(s);
      RemoveUnfold(s);
      var rt := RemoveFences(s[1..]);
      RemoveFencesLeavesNone(s[1..]);
      forall i | 1 <= i <= |r| - 3
        ensures !OccursAt(r, Fence, i)
      {
        var u, w := r[i..i + 3], rt[i - 1..i + 2];
        assert forall k :: 0 <= k < 3 ==> u[k] == w[k];
        assert u == w;
        assert !OccursAt(rt, Fence, i - 1);
      }
    }
  }

  /** Stripping a string never creates a pattern it did not contain. */
  lemma SliceKeepsAbsence(s: string, p: string, a: nat, b: nat)
    requires a <= b <= |s| && !Contains(s, p)
    ensures !Contains(s[a..b], p)
  {
    forall i | 0 <= i <= (b - a) - |p|
      ensures !OccursAt(s[a..b], p, i)
    {
      var u, w := s[a..b][i..i + |p|], s[a + i..a + i + |p|];
      assert forall k :: 0 <= k < |p| ==> u[k] == w[k];
      assert u == w;
      assert !OccursAt(s, p, a + i);
    }
  }

  lemma StripKeepsAbsence(s: string, p: string)
    requires !Contains(s, p)
    ensures !Contains(Strip(s), p)
  {
    var l := LStrip(s);
    SliceKeepsAbsence(s, p, |s| - |l|, |s|);
    assert l == s[|s| - |l|..|s|];
    SliceKeepsAbsence(l, p, 0, |RStrip(l)|);
  }

  /** Whatever the model sends, the cleaned text holds no code fence. */
  lemma CodeFenceCleanedHasNoFence(text: string)
    ensures !Contains(CodeFenceCleaned(text), Fence)
  {
    var s := ReplaceAll(Strip(text), JsonFence, "");
    RemoveFencesLeavesNone(s);
    StripKeepsAbsence(RemoveFences(s), Fence);
  }

  /** A backtick-free prefix passes through a removal of a pattern that
      starts with a backtick. */
  lemma {:induction false} ReplaceTickFree(b: string, tail: string, pat: string)
    requires |pat| > 0 && pat[0] == '`' && '`' !in b
    ensures ReplaceAll(b + tail, pat, "") == b + ReplaceAll(tail, pat, "")
    decreases |b|
  {
    if |b| > 0 {
      var s := b + tail;
      if |s| >= |pat| {
        assert s[..|pat|][0] == b[0];
        assert s[1..] == b[1..] + tail;
        ReplaceTickFree(b[1..], tail, pat);
        assert b == [b[0]] + b[1..];
      } else {
        assert ReplaceAll(tail, pat, "") == tail;
        assert ReplaceAll(s, pat, "") == s;
      }
    } else {
      assert b + tail == tail;
    }
  }

  /** A fenced JSON reply whose body has no backticks is cleaned back to the
      stripped body. */
  lemma CodeFenceRoundTrip(body: string)
    requires '`' !in body
    ensures CodeFenceCleaned(JsonFence + body + Fence) == Strip(body)
  {
    var x := JsonFence + body + Fence;
    assert x[0] == '`' && x[|x| - 1] == '`';
    assert Stripped(x);
    StrippedFixed(x);
    assert x[..7] == JsonFence;
    assert x[7..] == body + Fence;
    var y := ReplaceAll(x, JsonFence, "");
    assert y == "" + ReplaceAll(body + Fence, JsonFence, "");
    ReplaceTickFree(body, Fence, JsonFence);
    assert ReplaceAll(Fence, JsonFence, "") == Fence;
    assert y == body + Fence;
    ReplaceTickFree(body, Fence, Fence);
    assert RemoveFences(Fence) == "" + RemoveFences("");
    assert RemoveFences(y) == body;
  }

  /** The cleaning `generate_theme` applies: strip, drop "```json" only as
      a prefix and "```" only as a suffix, strip again. */
  function ThemeFenceCleaned(text: string): string {
    var s := Strip(text);
    var s1 := if StartsWith(s, JsonFence) then s[7..] else s;
    var s2 := if EndsWith(s1, Fence) then s1[..|s1| - 3] else s1;
    Strip(s2)
  }

  /** Any stripped body comes back exactly from its fenced form, backticks
      inside it included. */
  lemma ThemeFenceRoundTrip(body: string)
    requires Stripped(body)
    ensures ThemeFenceCleaned(JsonFence + body + Fence) == body
  {
    var x := JsonFence + body + Fence;
    assert Stripped(x);
    StrippedFixed(x);
    assert x[..7] == JsonFence;
    var s1 := x[7..];
    assert s1 == body + Fence;
    assert s1[|s1| - 3..] == Fence;
    assert s1[..|s1| - 3] == body;
    StrippedFixed(body);
  }

  /** Unfenced stripped text passes through the theme cleaner unchanged. */
  lemma ThemeFenceIdentity(text: string)
    requires Stripped(text) && !StartsWith(text, JsonFence) && !EndsWith(text, Fence)
    ensures ThemeFenceCleaned(text) == text
  {
    StrippedFixed(text);
  }

  // ------------------------------------------------------------ posts

  /** A decoded post `_generate_single_post` accepts for `expected`. */
  predicate AcceptedPost(m: map<string, Value>, expected: string) {
    && "channel" in m && "caption" in m && "hashtags" in m && "overlay_text" in m
    && m["channel"] == Str(expected)
    && m["hashtags"].List?
  }

  /** The checks after decoding, raising what the code raises before the
      outer handler wraps it. */
  function CheckPost(post: Value, expected: string): (r: Option<Exc>)
    ensures r.None? <==> post.Dict? && AcceptedPost(post.fields, expected)
  {
    if !Iterable(post) then Some(NotIterable(post))
    else match FirstAbsent(post, PostFields, 0)
    case Some(i) => Some(ValueError("Post missing required field: " + PostFields[i]))
    case None =>
      match PyIndex(post, "channel")
      case Err(e) => Some(e)
      case Ok(c) =>
        if c != Str(expected) then
          Some(ValueError("Expected channel '" + expected + "', but got '" + Show(c) + "'"))
        else match PyIndex(post, "hashtags")
          case Err(e) => Some(e)
          case Ok(h) =>
            if !h.List? then Some(ValueError("Hashtags should be an array"))
            else
              assert Member(PostFields[1], post) && Member(PostFields[3], post);
              None
  }

  /** The error `_generate_single_post` raises for any failure other than
      an undecodable reply. */
  function GenerationFailure(expected: string, detail: string): Exc {
    ValueError("Error generating " + expected + " post: " + detail)
  }

  /** The error it raises when the cleaned reply is not JSON. */
  function ParseFailure(decodeMsg: string, content: string): Exc {
    ValueError("Failed to parse JSON response: " + decodeMsg + "\nContent: " + Take(content, 500))
  }

  /** `_generate_single_post` after the completion: decodes the cleaned text,
      validates it and returns the decoded object itself. */
  function SinglePost(c: Completion, expected: string, env: Env): (r: Result<Value, Exc>)
    ensures r.Ok? <==>
      c.Reply? && env.decode(CodeFenceCleaned(c.text)).Ok?
      && env.decode(CodeFenceCleaned(c.text)).value.Dict?
      && AcceptedPost(env.decode(CodeFenceCleaned(c.text)).value.fields, expected)
    ensures r.Ok? ==> env.decode(CodeFenceCleaned(c.text)) == Ok(r.value)
    ensures c.CallFailed? ==> r == Err(GenerationFailure(expected, c.msg))
    ensures c.Reply? && env.decode(CodeFenceCleaned(c.text)).Err? ==>
      r == Err(ParseFailure(env.decode(CodeFenceCleaned(c.text)).error, CodeFenceCleaned(c.text)))
    ensures c.Reply? && env.decode(CodeFenceCleaned(c.text)).Ok? && r.Err? ==>
      exists detail :: r == Err(GenerationFailure(expected, detail))
  {
    match c
    case CallFailed(m) => Err(GenerationFailure(expected, m))
    case Reply(text) =>
      var content := CodeFenceCleaned(text);
      match env.decode(content)
      case Err(dm) => Err(ParseFailure(dm, content))
      case Ok(post) =>
        match CheckPost(post, expected)
        case Some(e) => Err(GenerationFailure(expected, Text(e)))
        case None => Ok(post)
  }

  /** `generate_instagram_post`, `generate_linkedin_post` and
      `generate_facebook_post`: validation, the prompt's reads of the
      company, then the completion for that channel. */
  function GeneratePost(ch: Channel, company: Value, c: Completion, env: Env): (r: Result<Value, Exc>)
    ensures r.Ok? ==> r.value.Dict? && AcceptedPost(r.value.fields, Title(ch))
    ensures r.Ok? <==>
      ValidateCompanyData(company).None? && ReadKeys(company, PostPromptKeys).Ok?
      && SinglePost(c, Title(ch), env).Ok?
    ensures !Truthy(company) ==> r == Err(ValueError("company_data is a required parameter"))
  {
    match ValidateCompanyData(company)
    case Some(e) => Err(e)
    case None =>
      match ReadKeys(company, PostPromptKeys)
      case Err(e) => Err(e)
      case Ok(_) => SinglePost(c, Title(ch), env)
  }

  /** A company dict lacking `tone_analysis` passes validation but fails on
      the prompt's read of it, with a bare `KeyError`. */
  lemma PromptNeedsToneAnalysis(ch: Channel, m: map<string, Value>, c: Completion, env: Env)
    requires forall f :: f in CompanyRequired ==> f in m
    requires "tone_analysis" !in m
    ensures GeneratePost(ch, Dict(m), c, env) == Err(MissingKey("tone_analysis"))
  {
    ValidationChecksPresenceOnly(m);
    ReadKeysFirstMissing(m, PostPromptKeys, 6);
  }

  /** The shape `generate_all_posts` promises: a "posts" list holding an
      accepted Instagram, LinkedIn and Facebook post, in that order. */
  predicate PostsInOrder(v: Value) {
    && v.Dict? && "posts" in v.fields && v.fields["posts"].List?
    && |v.fields["posts"].items| == 3
    && v.fields["posts"].items[0].Dict? && AcceptedPost(v.fields["posts"].items[0].fields, "Instagram")
    && v.fields["posts"].items[1].Dict? && AcceptedPost(v.fields["posts"].items[1].fields, "LinkedIn")
    && v.fields["posts"].items[2].Dict? && AcceptedPost(v.fields["posts"].items[2].fields, "Facebook")
  }

  /** The `{"posts": [...]}` object built from three accepted posts. */
  function PostsResult(ig: Value, li: Value, fb: Value): (r: Value)
    requires ig.Dict? && AcceptedPost(ig.fields, Title(Instagram))
    requires li.Dict? && AcceptedPost(li.fields, Title(LinkedIn))
    requires fb.Dict? && AcceptedPost(fb.fields, Title(Facebook))
    ensures PostsInOrder(r)
    ensures r.fields["posts"].items == [ig, li, fb]
  {
    Dict(map["posts" := List([ig, li, fb])])
  }

  /** `generate_all_posts`: Instagram, LinkedIn, Facebook in that order; the
      first failure propagates and stops the rest. */
  function GenerateAllPosts(company: Value, ig: Completion, li: Completion, fb: Completion, env: Env): (r: Result<Value, Exc>)
    ensures r.Ok? <==>
      GeneratePost(Instagram, company, ig, env).Ok? && GeneratePost(LinkedIn, company, li, env).Ok?
      && GeneratePost(Facebook, company, fb, env).Ok?
    ensures r.Ok? ==> PostsInOrder(r.value)
    ensures r.Ok? ==>
      r.value.fields["posts"].items ==
        [GeneratePost(Instagram, company, ig, env).value,
         GeneratePost(LinkedIn, company, li, env).value,
         GeneratePost(Facebook, company, fb, env).value]
    ensures GeneratePost(Instagram, company, ig, env).Err? ==> r == GeneratePost(Instagram, company, ig, env)
    ensures GeneratePost(Instagram, company, ig, env).Ok? && GeneratePost(LinkedIn, company, li, env).Err? ==>
      r == GeneratePost(LinkedIn, company, li, env)
    ensures GeneratePost(Instagram, company, ig, env).Ok? && GeneratePost(LinkedIn, company, li, env).Ok? ==>
      r.Err? == GeneratePost(Facebook, company, fb, env).Err? && (r.Err? ==> r == GeneratePost(Facebook, company, fb, env))
  {
    match GeneratePost(Instagram, company, ig, env)
    case Err(e) => Err(e)
    case Ok(p1) =>
      match GeneratePost(LinkedIn, company, li, env)
      case Err(e) => Err(e)
      case Ok(p2) =>
        match GeneratePost(Facebook, company, fb, env)
        case Err(e) => Err(e)
        case Ok(p3) => Ok(PostsResult(p1, p2, p3))
  }

  // ------------------------------------------------------------ themes

  /** The prompt's references to the first two existing themes: both must be
      indexable and both must have a `.get`. */
  function ExistingThemesContext(themes: Value): (r: Option<Exc>)
    ensures r.None? <==> themes.List? && |themes.items| >= 2 && themes.items[0].Dict? && themes.items[1].Dict?
  {
    match PyAt(themes, 0)
    case Err(e) => Some(e)
    case Ok(t0) =>
      if !t0.Dict? then Some(NoAttribute(t0, "get"))
      else match PyAt(themes, 1)
        case Err(e) => Some(e)
        case Ok(t1) => if !t1.Dict? then Some(NoAttribute(t1, "get")) else None
  }

  /** A stored month document whose `themes` the prompt can reference. */
  predicate UsableThemes(existing: Value) {
    existing.Dict? && "themes" in existing.fields && ExistingThemesContext(existing.fields["themes"]).None?
  }

  /** `generate_theme(company_data, month, existing_themes)`. The completion
      is not wrapped: its failure surfaces as is. */
  function GenerateTheme(company: Value, existing: Value, c: Completion, env: Env): (r: Result<Value, Exc>)
    ensures r.Ok? ==> c.Reply? && env.decode(ThemeFenceCleaned(c.text)) == Ok(r.value)
    ensures r.Ok? ==> ReadKeys(company, ThemeKeys).Ok?
    ensures ReadKeys(company, ThemeKeys).Ok? && existing == Null && c.Reply? ==>
      (r.Ok? <==> env.decode(ThemeFenceCleaned(c.text)).Ok?)
    ensures ReadKeys(company, ThemeKeys).Ok? && existing == Null && c.CallFailed? ==>
      r == Err(Raised(c.msg))
    ensures ReadKeys(company, ThemeKeys).Ok? && UsableThemes(existing) && c.Reply? ==>
      (r.Ok? <==> env.decode(ThemeFenceCleaned(c.text)).Ok?)
    ensures ReadKeys(company, ThemeKeys).Ok? && UsableThemes(existing) && c.CallFailed? ==>
      r == Err(Raised(c.msg))
  {
    match ReadKeys(company, ThemeKeys)
    case Err(e) => Err(e)
    case Ok(_) =>
      var ctx :=
        if !Truthy(existing) then None
        else if !existing.Dict? then Some(NoAttribute(existing, "get"))
        else if !Truthy(Get(existing.fields, "themes", Null)) then None
        else ExistingThemesContext(existing.fields["themes"]);
      if ctx.Some? then Err(ctx.value)
      else match c
        case CallFailed(m) => Err(Raised(m))
        case Reply(text) =>
          var content := ThemeFenceCleaned(text);
          match env.decode(content)
          case Err(_) => Err(ValueError("Model did not return valid JSON: " + Take(content, 200)))
          case Ok(v) => Ok(v)
  }

  /** A month document with a single existing theme makes the prompt's
      second reference fail before the model is asked. */
  lemma SingleExistingThemeFails(company: Value, t: map<string, Value>, c: Completion, env: Env)
    requires ReadKeys(company, ThemeKeys).Ok?
    ensures GenerateTheme(company, Dict(map["themes" := List([Dict(t)])]), c, env)
      == Err(IndexError("list index out of range"))
  {
    var ex := Dict(map["themes" := List([Dict(t)])]);
    assert Truthy(Get(ex.fields, "themes", Null));
    assert ExistingThemesContext(ex.fields["themes"]) == Some(IndexError("list index out of range"));
  }

  /** `company_data['address']` can be read and is not `None`. */
  predicate AddressGiven(company: Value) {
    PyIndex(company, "address").Ok? && PyIndex(company, "address").value != Null
  }

  /** The prompt is built and the model is asked: the address is given, its
      language was found and the company has every key the prompt reads. */
  predicate ModelAsked(company: Value, lang: Result<Value, Exc>) {
    AddressGiven(company) && lang.Ok? && ReadKeys(company, AllThemesKeys).Ok?
  }

  /** `generate_all_themes(company_data)`: `language` is bound only when the
      address is not `None`; `lang` is what `figure_out_language` returned. */
  function GenerateAllThemes(company: Value, lang: Result<Value, Exc>, c: Completion, env: Env): (r: Result<Value, Exc>)
    ensures r.Ok? ==> c.Reply? && env.decode(Strip(c.text)) == Ok(r.value)
    ensures r.Ok? ==>
      && PyIndex(company, "address").Ok? && PyIndex(company, "address").value != Null
      && lang.Ok? && ReadKeys(company, AllThemesKeys).Ok?
    ensures AddressGiven(company) && lang.Err? ==>
      r == Err(lang.error)
    ensures ModelAsked(company, lang) && c.CallFailed? ==> r == Err(Raised(c.msg))
    ensures ModelAsked(company, lang) && c.Reply? && env.decode(Strip(c.text)).Ok? ==>
      r == Ok(env.decode(Strip(c.text)).value)
    ensures ModelAsked(company, lang) && c.Reply? && env.decode(Strip(c.text)).Err? ==>
      r == Err(ValueError("Model did not return valid JSON: " + Take(Strip(c.text), 200)))
  {
    match PyIndex(company, "address")
    case Err(e) => Err(e)
    case Ok(address) =>
      if address != Null && lang.Err? then Err(lang.error)
      else match ReadKeys(company, AllThemesKeys)
        case Err(e) => Err(e)
        case Ok(_) =>
          if address == Null then Err(UnboundLocalError("language"))
          else match c
            case CallFailed(m) => Err(Raised(m))
            case Reply(text) =>
              var content := Strip(text);
              match env.decode(content)
              case Err(_) => Err(ValueError("Model did not return valid JSON: " + Take(content, 200)))
              case Ok(v) => Ok(v)
  }

  /** With `address` set to `None`, every company that has the other keys
      fails at the prompt with `language` unbound, whatever the model does. */
  lemma NullAddressLeavesLanguageUnbound(m: map<string, Value>, lang: Result<Value, Exc>, c: Completion, env: Env)
    requires "address" in m && m["address"] == Null
    requires forall k :: k in AllThemesKeys ==> k in m
    ensures GenerateAllThemes(Dict(m), lang, c, env) == Err(UnboundLocalError("language"))
  {
  }

  // ------------------------------------------------------------ normalize_field

  lemma ContainsShift(a: string, t: string, p: string)
    requires Contains(t, p)
    ensures Contains(a + t, p)
  {
    var i :| 0 <= i <= |t| - |p| && OccursAt(t, p, i);
    var u, w := (a + t)[|a| + i..|a| + i + |p|], t[i..i + |p|];
    assert forall k :: 0 <= k < |p| ==> u[k] == w[k];
    assert u == w;
    assert OccursAt(a + t, p, |a| + i);
  }

  lemma {:induction false} JoinContains(xs: seq<string>, sep: string, i: nat)
    requires i < |xs|
    ensures Contains(Join(xs, sep), xs[i])
    decreases |xs|
  {
    var j := Join(xs, sep);
    if i == 0 {
      assert j[..|xs[0]|] == xs[0];
      assert OccursAt(j, xs[0], 0);
    } else {
      JoinContains(xs[1..], sep, i - 1);
      ContainsShift(xs[0] + sep, Join(xs[1..], sep), xs[i]);
    }
  }

  /** `normalize_field(value)`; a set is joined in the iteration order
      `order`, which Python leaves unspecified. */
  function NormalizeField(v: Value, order: seq<string>): (r: string)
    requires v.StrSet? ==> Enumerates(order, v.elems)
    ensures v.Null? ==> r == ""
    ensures v.StrSet? ==> r == Join(order, ", ") && forall x :: x in v.elems ==> Contains(r, x)
    ensures !v.StrSet? && !v.Null? ==> r == Show(v)
  {
    match v
    case StrSet(e) =>
      var r := Join(order, ", ");
      assert forall x :: x in e ==> Contains(r, x) by {
        forall x | x in e
          ensures Contains(r, x)
        {
          var i :| 0 <= i < |order| && order[i] == x;
          JoinContains(order, ", ", i);
        }
      }
      r
    case Null => ""
    case _ => Show(v)
  }

  /** A set of comma-free strings is recovered, in its iteration order, by
      splitting its normalised text on ", ". */
  lemma NormalizeSetSplits(e: set<string>, order: seq<string>)
    requires e != {} && Enumerates(order, e)
    requires forall x :: x in e ==> ',' !in x
    ensures SplitOn(NormalizeField(StrSet(e), order), ", ") == order
  {
    var x :| x in e;
    assert |order| > 0;
    SplitJoin(order, ", ");
  }

  /** A list of image-analysis phrases: strings of plain characters
      without commas. */
  predicate Phrases(xs: seq<string>) {
    forall i, j :: 0 <= i < |xs| && 0 <= j < |xs[i]| ==> PlainChar(xs[i][j]) && xs[i][j] != ','
  }

  /** Reads back the text `str` gives a list of phrases: brackets around
      single-quoted items separated by ", ". */
  function ParsePhrases(s: string): Option<seq<string>> {
    if |s| < 2 || s[0] != '[' || s[|s| - 1] != ']' then None
    else
      var inner := s[1..|s| - 1];
      if inner == "" then Some([])
      else
        var parts := SplitOn(inner, ", ");
        if forall i :: 0 <= i < |parts| ==> Quoted(parts[i]) then
          Some(seq(|parts|, i requires 0 <= i < |parts| => Unquote(parts[i])))
        else None
  }

  predicate Quoted(s: string) {
    |s| >= 2 && s[0] == '\'' && s[|s| - 1] == '\''
  }

  function Unquote(s: string): string
    requires Quoted(s)
  {
    s[1..|s| - 1]
  }

  function QuoteAll(xs: seq<string>): (r: seq<string>)
    ensures |r| == |xs| && forall i :: 0 <= i < |xs| ==> r[i] == "'" + xs[i] + "'"
  {
    seq(|xs|, i requires 0 <= i < |xs| => "'" + xs[i] + "'")
  }

  /** `str` of a list of phrases is a faithful rendering: reading it back
      gives the phrases. */
  lemma NormalizePhrasesRoundTrip(xs: seq<string>)
    requires Phrases(xs)
    ensures ParsePhrases(NormalizeField(List(Strs(xs)), [])) == Some(xs)
  {
    ReprsOfPhrases(xs);
    assert NormalizeField(List(Strs(xs)), []) == "[" + Join(QuoteAll(xs), ", ") + "]";
    ParseQuoted(xs);
  }

  lemma ReprsOfPhrases(xs: seq<string>)
    requires Phrases(xs)
    ensures Reprs(Strs(xs)) == QuoteAll(xs)
  {
    var vs := Strs(xs);
    forall i | 0 <= i < |xs|
      ensures Reprs(vs)[i] == QuoteAll(xs)[i]
    {
      PlainReprStr(xs[i]);
    }
  }

  lemma ParseQuoted(xs: seq<string>)
    requires Phrases(xs)
    ensures ParsePhrases("[" + Join(QuoteAll(xs), ", ") + "]") == Some(xs)
  {
    var q := QuoteAll(xs);
    var s := "[" + Join(q, ", ") + "]";
    assert s[1..|s| - 1] == Join(q, ", ");
    if |xs| > 0 {
      QuotedCommaFree(xs);
      SplitJoin(q, ", ");
      JoinCoversFirst(q, ", ");
      UnquoteAll(xs);
      assert seq(|q|, i requires 0 <= i < |q| => Unquote(q[i])) == xs;
    }
  }

  lemma QuotedCommaFree(xs: seq<string>)
    requires Phrases(xs)
    ensures forall i :: 0 <= i < |xs| ==> ',' !in QuoteAll(xs)[i]
  {
    forall i | 0 <= i < |xs|
      ensures ',' !in QuoteAll(xs)[i]
    {
      assert forall j :: 0 <= j < |xs[i]| ==> xs[i][j] != ',';
    }
  }

  /** The join is at least as long as its first piece. */
  lemma JoinCoversFirst(xs: seq<string>, sep: string)
    requires |xs| > 0
    ensures |Join(xs, sep)| >= |xs[0]|
  {
  }

  lemma UnquoteAll(xs: seq<string>)
    ensures forall i :: 0 <= i < |xs| ==> Quoted(QuoteAll(xs)[i])
    ensures seq(|xs|, i requires 0 <= i < |xs| => Unquote(QuoteAll(xs)[i])) == xs
  {
    var q := QuoteAll(xs);
    forall i | 0 <= i < |xs|
      ensures Quoted(q[i]) && Unquote(q[i]) == xs[i]
    {
      assert q[i] == "'" + xs[i] + "'";
    }
  }
}
