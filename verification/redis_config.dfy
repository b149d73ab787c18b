/** The Upstash REST client in front of the cache (`redis_set`,
    `redis_get`, `redis_delete` and the list operations). The client
    functions take the server's reply as a parameter; `Serve` is a small
    model of the Redis server answering the requests they build, so that
    what one operation writes can be followed into what another reads. */
module RedisConfig {
  import opened Values

  /** Two days, in seconds. */
  const DefaultTtl: int := 172800

  /** `UPSTASH_REDIS_REST_URL` and `UPSTASH_REDIS_REST_TOKEN`, `None` when unset. */
  datatype Config = Config(url: Option<string>, token: Option<string>)

  /** Both settings present and non-empty. */
  predicate Configured(cfg: Config) {
    cfg.url.Some? && cfg.url.value != "" && cfg.token.Some? && cfg.token.value != ""
  }

  type Command = seq<string>

  /** What goes over the wire: a `/pipeline` POST of commands, a
      `GET /get/{key}`, or a `POST /del/{key}`. */
  datatype Request = Pipeline(commands: seq<Command>) | GetKey(key: string) | DelKey(key: string)

  /** The server's answer: a JSON body, an HTTP error status (which
      `raise_for_status` turns into an exception), or a transport failure. */
  datatype Reply = Body(json: Value) | Status(code: int) | Failed

  /** The first entry of a pipeline's JSON result, when it is a non-empty list. */
  function FirstResult(json: Value): (r: Option<Value>)
    ensures r.Some? <==> json.List? && |json.items| > 0
    ensures r.Some? ==> r.value == json.items[0]
  {
    if json.List? && |json.items| > 0 then Some(json.items[0]) else None
  }

  function TtlOf(ttl: Option<int>): (r: int)
    ensures ttl.None? ==> r == DefaultTtl
    ensures ttl.Some? ==> r == ttl.value
  {
    if ttl.Some? then ttl.value else DefaultTtl
  }

  // ----------------------------------------------------------------- redis_set

  /** The string stored by `redis_set`: JSON for a dict or list, a string
      verbatim, `str(value)` otherwise. */
  function SetValue(v: Value, env: Env): (r: string)
    ensures v.Dict? || v.List? ==> r == env.encode(v)
    ensures v.Str? ==> r == v.s
    ensures !v.Dict? && !v.List? && !v.Str? ==> r == Show(v)
  {
    if v.Dict? || v.List? then env.encode(v) else if v.Str? then v.s else Show(v)
  }

  /** `SETEX key ttl value` for a positive TTL (two days when none is
      given), `SET key value` otherwise. */
  function SetCommand(key: string, v: Value, ttl: Option<int>, env: Env): (r: Command)
    ensures TtlOf(ttl) > 0 ==> r == ["SETEX", key, IntToString(TtlOf(ttl)), SetValue(v, env)]
    ensures TtlOf(ttl) <= 0 ==> r == ["SET", key, SetValue(v, env)]
  {
    var t := TtlOf(ttl);
    if t > 0 then ["SETEX", key, IntToString(t), SetValue(v, env)] else ["SET", key, SetValue(v, env)]
  }

  /** The pipeline acknowledged the write: its first result is `{"result": "OK"}` or `"OK"`. */
  predicate Acknowledged(reply: Reply) {
    && reply.Body?
    && FirstResult(reply.json).Some?
    && var first := FirstResult(reply.json).value;
       (first.Dict? && Get(first.fields, "result", Null) == Str("OK")) || first == Str("OK")
  }

  /** `redis_set`: the request sent (none when unconfigured) and the
      boolean returned; every failure gives `False`. */
  function RedisSet(cfg: Config, key: string, v: Value, ttl: Option<int>, env: Env, reply: Reply): (r: (Option<Request>, bool))
    ensures !Configured(cfg) ==> r == (None, false)
    ensures Configured(cfg) ==> r.0 == Some(Pipeline([SetCommand(key, v, ttl, env)]))
    ensures r.1 <==> Configured(cfg) && Acknowledged(reply)
  {
    if !Configured(cfg) then (None, false)
    else (Some(Pipeline([SetCommand(key, v, ttl, env)])), Acknowledged(reply))
  }

  // ----------------------------------------------------------------- redis_get

  /** A stored string read back: its JSON value when it decodes, the raw
      string otherwise. */
  function Decoded(s: string, env: Env): (r: Value)
    ensures env.decode(s).Ok? ==> r == env.decode(s).value
    ensures env.decode(s).Err? ==> r == Str(s)
  {
    match env.decode(s)
    case Ok(x) => x
    case Err(_) => Str(s)
  }

  /** `redis_get`: `None` (here `Null`) when unconfigured, absent, or on
      any failure; otherwise the `result` field, decoded when it is a
      JSON string. */
  function RedisGet(cfg: Config, key: string, env: Env, reply: Reply): (r: (Option<Request>, Value))
    ensures !Configured(cfg) ==> r == (None, Null)
    ensures Configured(cfg) ==> r.0 == Some(GetKey(key))
    ensures !reply.Body? || !reply.json.Dict? ==> r.1 == Null
    ensures Configured(cfg) && reply.Body? && reply.json.Dict? ==>
      var v := Get(reply.json.fields, "result", Null);
      && (v.Str? ==> r.1 == Decoded(v.s, env))
      && (!v.Str? ==> r.1 == v)
  {
    if !Configured(cfg) then (None, Null)
    else
      var value :=
        match reply
        case Body(json) =>
          if !json.Dict? then Null
          else
            var v := Get(json.fields, "result", Null);
            if v == Null then Null
            else if v.Str? then Decoded(v.s, env)
            else v
        case _ => Null;
      (Some(GetKey(key)), value)
  }

  // -------------------------------------------------------------- redis_delete

  /** `result >= 1` on whatever the reply holds under `result` (0 when
      absent); a comparison Python refuses counts as `False`. */
  predicate AtLeastOne(v: Value) {
    (v.Int? && v.i >= 1) || (v.Bool? && v.b)
  }

  /** `redis_delete`: `True` iff the reply reports at least one key deleted. */
  function RedisDelete(cfg: Config, key: string, reply: Reply): (r: (Option<Request>, bool))
    ensures !Configured(cfg) ==> r == (None, false)
    ensures Configured(cfg) ==> r.0 == Some(DelKey(key))
    ensures r.1 <==> Configured(cfg) && reply.Body? && reply.json.Dict? && AtLeastOne(Get(reply.json.fields, "result", Int(0)))
  {
    if !Configured(cfg) then (None, false)
    else
      var ok := reply.Body? && reply.json.Dict? && AtLeastOne(Get(reply.json.fields, "result", Int(0)));
      (Some(DelKey(key)), ok)
  }

  // ----------------------------------------------------------- redis_list_push

  /** A pipeline result that acknowledges a push: a dict whose `result` is
      not `None`, or an integer (Python's `bool` is one). */
  predicate Acknowledges(first: Value) {
    (first.Dict? && Get(first.fields, "result", Null) != Null) || first.Int? || first.Bool?
  }

  /** `redis_list_push`: one `RPUSH` of the JSON-encoded value; `True` iff
      the first result is a dict with a non-null `result` or an integer. */
  function RedisListPush(cfg: Config, key: string, v: Value, env: Env, reply: Reply): (r: (Option<Request>, bool))
    ensures !Configured(cfg) ==> r == (None, false)
    ensures Configured(cfg) ==> r.0 == Some(Pipeline([["RPUSH", key, env.encode(v)]]))
    ensures r.1 <==> Configured(cfg) && reply.Body? && FirstResult(reply.json).Some? && Acknowledges(FirstResult(reply.json).value)
  {
    if !Configured(cfg) then (None, false)
    else
      var ok :=
        && reply.Body?
        && FirstResult(reply.json).Some?
        && var first := FirstResult(reply.json).value;
           Acknowledges(first);
      (Some(Pipeline([["RPUSH", key, env.encode(v)]])), ok)
  }

  // -------------------------------------------------------- redis_list_get_all

  /** The decoding loop: items that are JSON strings are decoded, in order;
      anything else is dropped. */
  function DecodeItems(xs: seq<Value>, env: Env): (r: seq<Value>)
    ensures |r| <= |xs|
    ensures (forall i :: 0 <= i < |xs| ==> xs[i].Str? && env.decode(xs[i].s).Ok?) ==>
      |r| == |xs| && forall i :: 0 <= i < |xs| ==> r[i] == env.decode(xs[i].s).value
    decreases |xs|
  {
    if xs == [] then []
    else
      var rest := DecodeItems(xs[1..], env);
      if xs[0].Str? && env.decode(xs[0].s).Ok? then [env.decode(xs[0].s).value] + rest else rest
  }

  /** The characters of a string, as the strings iteration yields. */
  function Chars(s: string): (r: seq<Value>)
    ensures |r| == |s| && forall i :: 0 <= i < |s| ==> r[i] == Str([s[i]])
  {
    seq(|s|, i requires 0 <= i < |s| => Str([s[i]]))
  }

  /** What the first pipeline result holds as the list's items. */
  function RawItems(reply: Reply): Value {
    if !reply.Body? || FirstResult(reply.json).None? then List([])
    else
      var first := FirstResult(reply.json).value;
      if first.Dict? then Get(first.fields, "result", List([]))
      else if first.List? then first
      else List([])
  }

  /** `redis_list_get_all`: one `LRANGE key 0 -1`; the items decoded
      leniently; `[]` when unconfigured or on any failure. */
  function RedisListGetAll(cfg: Config, key: string, env: Env, reply: Reply): (r: (Option<Request>, seq<Value>))
    ensures !Configured(cfg) ==> r == (None, [])
    ensures Configured(cfg) ==> r.0 == Some(Pipeline([["LRANGE", key, "0", "-1"]]))
    ensures Configured(cfg) && RawItems(reply).List? ==> r.1 == DecodeItems(RawItems(reply).items, env)
    ensures !reply.Body? ==> r.1 == []
  {
    if !Configured(cfg) then (None, [])
    else
      var items := RawItems(reply);
      var decoded :=
        if !Truthy(items) then []
        else match items
          case List(xs) => DecodeItems(xs, env)
          case Str(s) => DecodeItems(Chars(s), env)
          case _ => [];
      (Some(Pipeline([["LRANGE", key, "0", "-1"]])), decoded)
  }

  // -------------------------------------------------------- redis_list_set_all

  function PushCommands(key: string, items: seq<Value>, env: Env): (r: seq<Command>)
    ensures |r| == |items|
    ensures forall i :: 0 <= i < |items| ==> r[i] == ["RPUSH", key, env.encode(items[i])]
  {
    seq(|items|, i requires 0 <= i < |items| => ["RPUSH", key, env.encode(items[i])])
  }

  /** The replacing pipeline: `DEL`, one `RPUSH` per item in order, and
      `EXPIRE` only for a positive TTL and a non-empty list. */
  function SetAllCommands(key: string, items: seq<Value>, ttl: Option<int>, env: Env): (r: seq<Command>)
    ensures |r| >= 1 + |items|
    ensures r[0] == ["DEL", key]
    ensures r[1..1 + |items|] == PushCommands(key, items, env)
    ensures TtlOf(ttl) > 0 && items != [] ==> |r| == |items| + 2 && r[|items| + 1] == ["EXPIRE", key, IntToString(TtlOf(ttl))]
    ensures !(TtlOf(ttl) > 0 && items != []) ==> |r| == |items| + 1
  {
    var t := TtlOf(ttl);
    [["DEL", key]] + PushCommands(key, items, env) + (if t > 0 && items != [] then [["EXPIRE", key, IntToString(t)]] else [])
  }

  /** `redis_list_set_all`: `True` iff the pipeline answers with a
      non-empty list. */
  function RedisListSetAll(cfg: Config, key: string, items: seq<Value>, ttl: Option<int>, env: Env, reply: Reply): (r: (Option<Request>, bool))
    ensures !Configured(cfg) ==> r == (None, false)
    ensures Configured(cfg) ==> r.0 == Some(Pipeline(SetAllCommands(key, items, ttl, env)))
    ensures r.1 <==> Configured(cfg) && reply.Body? && FirstResult(reply.json).Some?
  {
    if !Configured(cfg) then (None, false)
    else (Some(Pipeline(SetAllCommands(key, items, ttl, env))), reply.Body? && FirstResult(reply.json).Some?)
  }

  // ------------------------------------------------ redis_list_remove_by_value

  /** `redis_list_remove_by_value`: `LREM key 0 json(value)`; the count the
      reply reports, `0` when unconfigured or on any failure. */
  function RedisListRemoveByValue(cfg: Config, key: string, v: Value, env: Env, reply: Reply): (r: (Option<Request>, Value))
    ensures !Configured(cfg) ==> r == (None, Int(0))
    ensures Configured(cfg) ==> r.0 == Some(Pipeline([["LREM", key, "0", env.encode(v)]]))
    ensures !reply.Body? || FirstResult(reply.json).None? ==> r.1 == Int(0)
  {
    if !Configured(cfg) then (None, Int(0))
    else
      var count :=
        if !reply.Body? || FirstResult(reply.json).None? then Int(0)
        else
          var first := FirstResult(reply.json).value;
          if first.Dict? then Get(first.fields, "result", Int(0))
          else if first.Int? || first.Bool? then first
          else Int(0);
      (Some(Pipeline([["LREM", key, "0", env.encode(v)]])), count)
  }

  // -------------------------------------------------------------- the server

  /** A Redis value: a string or a list of strings. Expiry is not modelled. */
  datatype Entry = Text(s: string) | Items(xs: seq<string>)

  type Cache = map<string, Entry>

  const WrongType: string := "WRONGTYPE Operation against a key holding the wrong kind of value"

  /** `xs` without any element equal to `v`. */
  function Without(xs: seq<string>, v: string): (r: seq<string>)
    ensures |r| <= |xs|
    ensures forall i :: 0 <= i < |r| ==> r[i] != v
    decreases |xs|
  {
    if xs == [] then [] else (if xs[0] == v then [] else [xs[0]]) + Without(xs[1..], v)
  }

  /** One command against the cache: the new cache and the command's
      result, or an error message. */
  function Exec(cache: Cache, cmd: Command): (Cache, Result<Value, string>) {
    if |cmd| == 3 && cmd[0] == "SET" then (cache[cmd[1] := Text(cmd[2])], Ok(Str("OK")))
    else if |cmd| == 4 && cmd[0] == "SETEX" then (cache[cmd[1] := Text(cmd[3])], Ok(Str("OK")))
    else if |cmd| == 2 && cmd[0] == "DEL" then
      (cache - {cmd[1]}, Ok(Int(if cmd[1] in cache then 1 else 0)))
    else if |cmd| == 3 && cmd[0] == "RPUSH" then
      var k := cmd[1];
      if k !in cache then (cache[k := Items([cmd[2]])], Ok(Int(1)))
      else if cache[k].Items? then (cache[k := Items(cache[k].xs + [cmd[2]])], Ok(Int(|cache[k].xs| + 1)))
      else (cache, Err(WrongType))
    else if |cmd| == 3 && cmd[0] == "EXPIRE" then (cache, Ok(Int(if cmd[1] in cache then 1 else 0)))
    else if cmd == ["LRANGE", if |cmd| > 1 then cmd[1] else "", "0", "-1"] then
      var k := cmd[1];
      if k !in cache then (cache, Ok(List([])))
      else if cache[k].Items? then (cache, Ok(List(Strs(cache[k].xs))))
      else (cache, Err(WrongType))
    else if |cmd| == 4 && cmd[0] == "LREM" && cmd[2] == "0" then
      var k := cmd[1];
      if k !in cache then (cache, Ok(Int(0)))
      else if cache[k].Items? then
        var rest := Without(cache[k].xs, cmd[3]);
        (if rest == [] then cache - {k} else cache[k := Items(rest)], Ok(Int(|cache[k].xs| - |rest|)))
      else (cache, Err(WrongType))
    else (cache, Err("ERR unknown command"))
  }

  /** How Upstash reports one pipelined command. */
  function Wrapped(res: Result<Value, string>): Value {
    match res
    case Ok(v) => Dict(map["result" := v])
    case Err(msg) => Dict(map["error" := Str(msg)])
  }

  /** The commands run in order, each result wrapped. */
  function RunPipeline(cache: Cache, cmds: seq<Command>): (r: (Cache, seq<Value>))
    ensures |r.1| == |cmds|
    decreases |cmds|
  {
    if cmds == [] then (cache, [])
    else
      var (c1, res) := Exec(cache, cmds[0]);
      var (c2, rest) := RunPipeline(c1, cmds[1..]);
      (c2, [Wrapped(res)] + rest)
  }

  /** The server answering a request. */
  function Serve(cache: Cache, req: Request): (Cache, Reply) {
    match req
    case Pipeline(cmds) =>
      var (c, results) := RunPipeline(cache, cmds);
      (c, Body(List(results)))
    case GetKey(k) =>
      if k !in cache then (cache, Body(Dict(map["result" := Null])))
      else if cache[k].Text? then (cache, Body(Dict(map["result" := Str(cache[k].s)])))
      else (cache, Body(Dict(map["error" := Str(WrongType)])))
    case DelKey(k) => (cache - {k}, Body(Dict(map["result" := Int(if k in cache then 1 else 0)])))
  }

  // ------------------------------------------------------- what reads see

  /** With no TTL given, the value is written with `SETEX` and two days. */
  lemma DefaultTtlCommand(key: string, v: Value, env: Env)
    ensures SetCommand(key, v, None, env) == ["SETEX", key, "172800", SetValue(v, env)]
  {
    assert NatToString(1) == ['1'];
    assert NatToString(17) == ['1', '7'];
    assert NatToString(172) == ['1', '7', '2'];
    assert NatToString(1728) == ['1', '7', '2', '8'];
    assert NatToString(17280) == ['1', '7', '2', '8', '0'];
    assert NatToString(172800) == ['1', '7', '2', '8', '0', '0'];
    assert IntToString(TtlOf(None)) == "172800";
  }

  /** A value written with `redis_set` is acknowledged, and `redis_get`
      then returns the stored string decoded: a dict or list whose JSON
      encoding decodes back comes back unchanged, while a string that
      happens to be valid JSON comes back decoded. */
  lemma SetThenGet(cache: Cache, cfg: Config, key: string, v: Value, ttl: Option<int>, env: Env)
    requires Configured(cfg)
    ensures var (c1, rep1) := Serve(cache, Pipeline([SetCommand(key, v, ttl, env)]));
      && RedisSet(cfg, key, v, ttl, env, rep1).1
      && RedisGet(cfg, key, env, Serve(c1, GetKey(key)).1).1 == Decoded(SetValue(v, env), env)
    ensures (v.Dict? || v.List?) && env.decode(env.encode(v)) == Ok(v) ==>
      var c1 := Serve(cache, Pipeline([SetCommand(key, v, ttl, env)])).0;
      RedisGet(cfg, key, env, Serve(c1, GetKey(key)).1).1 == v
  {
    var cmd := SetCommand(key, v, ttl, env);
    var (c1, rep1) := Serve(cache, Pipeline([cmd]));
    assert c1 == cache[key := Text(SetValue(v, env))];
    assert RunPipeline(cache, [cmd]).1 == [Wrapped(Ok(Str("OK")))];
  }

  /** A deletion reports `True` exactly when the key existed, and a read
      afterwards finds nothing. */
  lemma DeleteThenGet(cache: Cache, cfg: Config, key: string, env: Env)
    requires Configured(cfg)
    ensures var (c1, rep1) := Serve(cache, DelKey(key));
      && (RedisDelete(cfg, key, rep1).1 <==> key in cache)
      && RedisGet(cfg, key, env, Serve(c1, GetKey(key)).1).1 == Null
  {
  }

  /** A push is acknowledged exactly when the key is absent or holds a
      list; then the list gains the value's encoding at its end and no
      other key changes. A key holding a string is left as it was. */
  lemma PushThenList(cache: Cache, cfg: Config, key: string, v: Value, env: Env)
    requires Configured(cfg)
    ensures var (c1, rep) := Serve(cache, Pipeline([["RPUSH", key, env.encode(v)]]));
      && (RedisListPush(cfg, key, v, env, rep).1 <==> key !in cache || cache[key].Items?)
      && ((key !in cache || cache[key].Items?) ==> c1 == cache[key := Items(ListAt(cache, key) + [env.encode(v)])])
      && (key in cache && cache[key].Text? ==> c1 == cache)
  {
    var cmd: Command := ["RPUSH", key, env.encode(v)];
    RunSingle(cache, cmd);
    var (c1, rep) := Serve(cache, Pipeline([cmd]));
    assert rep == Body(List([Wrapped(Exec(cache, cmd).1)]));
    if key !in cache || cache[key].Items? {
      PushExtends(cache, key, env.encode(v));
    }
  }

  lemma RunSingle(cache: Cache, cmd: Command)
    ensures RunPipeline(cache, [cmd]) == (Exec(cache, cmd).0, [Wrapped(Exec(cache, cmd).1)])
  {
    var (c1, res) := Exec(cache, cmd);
    assert [cmd][1..] == [];
    assert RunPipeline(c1, []) == (c1, []);
    assert [Wrapped(res)] + [] == [Wrapped(res)];
  }

  /** The strings `RPUSH` stores for `items`. */
  function Encoded(items: seq<Value>, env: Env): (r: seq<string>)
    ensures |r| == |items| && forall i :: 0 <= i < |items| ==> r[i] == env.encode(items[i])
  {
    seq(|items|, i requires 0 <= i < |items| => env.encode(items[i]))
  }

  /** The list held at `key`, empty when the key is absent. */
  function ListAt(cache: Cache, key: string): seq<string>
    requires key !in cache || cache[key].Items?
  {
    if key in cache then cache[key].xs else []
  }

  /** One `RPUSH` onto an absent key or a list appends to the list. */
  lemma PushExtends(cache: Cache, key: string, x: string)
    requires key !in cache || cache[key].Items?
    ensures Exec(cache, ["RPUSH", key, x]).0 == cache[key := Items(ListAt(cache, key) + [x])]
  {
    if key !in cache {
      assert ListAt(cache, key) + [x] == [x];
    }
  }

  lemma PushesCons(key: string, items: seq<Value>, env: Env)
    requires items != []
    ensures PushCommands(key, items, env) == [["RPUSH", key, env.encode(items[0])]] + PushCommands(key, items[1..], env)
    ensures Encoded(items, env) == [env.encode(items[0])] + Encoded(items[1..], env)
  {
  }

  /** A pipeline that starts with an `RPUSH` onto an absent key or a list
      runs the rest against the extended list. */
  lemma PushThenRest(cache: Cache, key: string, x: string, rest: seq<Command>)
    requires key !in cache || cache[key].Items?
    ensures RunPipeline(cache, [["RPUSH", key, x]] + rest).0
      == RunPipeline(cache[key := Items(ListAt(cache, key) + [x])], rest).0
  {
    var cmds := [["RPUSH", key, x]] + rest;
    assert cmds[0] == ["RPUSH", key, x] && cmds[1..] == rest;
    PushExtends(cache, key, x);
  }

  lemma {:induction false} RunPipelineAppend(cache: Cache, a: seq<Command>, b: seq<Command>)
    ensures RunPipeline(cache, a + b).0 == RunPipeline(RunPipeline(cache, a).0, b).0
    decreases |a|
  {
    if a == [] {
      assert a + b == b;
    } else {
      assert (a + b)[0] == a[0];
      assert (a + b)[1..] == a[1..] + b;
      RunPipelineAppend(Exec(cache, a[0]).0, a[1..], b);
    }
  }

  /** `after` holds the list at `key` in `before` followed by the
      encodings of `items`; the key is present unless both are empty. */
  predicate AppendsTo(before: Cache, after: Cache, key: string, items: seq<Value>, env: Env)
    requires key !in before || before[key].Items?
  {
    && (key !in after || after[key].Items?)
    && ListAt(after, key) == ListAt(before, key) + Encoded(items, env)
    && (key in after <==> key in before || items != [])
  }

  /** The step: the rest appended to the list extended by the first item is
      all the items appended to the list. */
  lemma PushesStep(cache: Cache, after: Cache, key: string, items: seq<Value>, env: Env)
    requires items != [] && (key !in cache || cache[key].Items?)
    requires AppendsTo(cache[key := Items(ListAt(cache, key) + [env.encode(items[0])])], after, key, items[1..], env)
    ensures AppendsTo(cache, after, key, items, env)
  {
    var x := env.encode(items[0]);
    assert Encoded(items, env) == [x] + Encoded(items[1..], env) by { PushesCons(key, items, env); }
    assert ListAt(after, key) == (ListAt(cache, key) + [x]) + Encoded(items[1..], env);
  }

  /** Pushing the items one by one appends their encodings to the list. */
  lemma {:induction false} PushesAppend(cache: Cache, key: string, items: seq<Value>, env: Env)
    requires key !in cache || cache[key].Items?
    ensures AppendsTo(cache, RunPipeline(cache, PushCommands(key, items, env)).0, key, items, env)
    decreases |items|
  {
    if items == [] {
      assert PushCommands(key, items, env) == [];
      assert ListAt(cache, key) + Encoded(items, env) == ListAt(cache, key);
    } else {
      var x := env.encode(items[0]);
      var rest := PushCommands(key, items[1..], env);
      var c1 := cache[key := Items(ListAt(cache, key) + [x])];
      assert RunPipeline(cache, PushCommands(key, items, env)).0 == RunPipeline(c1, rest).0 by {
        PushesCons(key, items, env);
        PushThenRest(cache, key, x, rest);
      }
      PushesAppend(c1, key, items[1..], env);
      PushesStep(cache, RunPipeline(c1, rest).0, key, items, env);
    }
  }

  /** The cache after `redis_list_set_all`: exactly the encodings of the
      items, in order, or no key at all for an empty list. */
  lemma SetAllStores(cache: Cache, key: string, items: seq<Value>, ttl: Option<int>, env: Env)
    ensures var c := RunPipeline(cache, SetAllCommands(key, items, ttl, env)).0;
      && (key in c <==> items != [])
      && (key in c ==> c[key] == Items(Encoded(items, env)))
  {
    var cmds := SetAllCommands(key, items, ttl, env);
    var pushes := PushCommands(key, items, env);
    var tail := cmds[1 + |items|..];
    assert cmds == [cmds[0]] + pushes + tail;
    RunPipelineAppend(cache, [cmds[0]] + pushes, tail);
    RunPipelineAppend(cache, [cmds[0]], pushes);
    var c0 := RunPipeline(cache, [cmds[0]]).0;
    assert c0 == cache - {key};
    PushesAppend(c0, key, items, env);
    var c2 := RunPipeline(c0, pushes).0;
    assert RunPipeline(c2, tail).0 == c2;
  }

  /** Each item as its JSON encoding decodes. */
  function RoundTripped(items: seq<Value>, env: Env): (r: seq<Value>)
    requires forall i :: 0 <= i < |items| ==> env.decode(env.encode(items[i])).Ok?
    ensures |r| == |items| && forall i :: 0 <= i < |items| ==> r[i] == env.decode(env.encode(items[i])).value
  {
    seq(|items|, i requires 0 <= i < |items| => env.decode(env.encode(items[i])).value)
  }

  /** Replacing a list and reading it back returns each item as its JSON
      encoding decodes: a datetime, say, comes back as its string. */
  lemma SetAllThenGetAllDecoded(cache: Cache, cfg: Config, key: string, items: seq<Value>, ttl: Option<int>, env: Env)
    requires Configured(cfg)
    requires forall i :: 0 <= i < |items| ==> env.decode(env.encode(items[i])).Ok?
    ensures var (c1, rep1) := Serve(cache, Pipeline(SetAllCommands(key, items, ttl, env)));
      && RedisListSetAll(cfg, key, items, ttl, env, rep1).1
      && RedisListGetAll(cfg, key, env, Serve(c1, Pipeline([["LRANGE", key, "0", "-1"]])).1).1 == RoundTripped(items, env)
  {
    var (c1, rep1) := Serve(cache, Pipeline(SetAllCommands(key, items, ttl, env)));
    SetAllStores(cache, key, items, ttl, env);
    var lrange: Command := ["LRANGE", key, "0", "-1"];
    var rep2 := Serve(c1, Pipeline([lrange])).1;
    var stored := if key in c1 then Strs(c1[key].xs) else [];
    assert Exec(c1, lrange).1 == Ok(List(stored));
    RunSingle(c1, lrange);
    assert rep2 == Body(List([Wrapped(Ok(List(stored)))]));
    assert RawItems(rep2) == List(stored);
    if items != [] {
      assert stored == Strs(Encoded(items, env));
      assert forall i :: 0 <= i < |stored| ==> stored[i].Str? && env.decode(stored[i].s) == env.decode(env.encode(items[i]));
      assert DecodeItems(stored, env) == RoundTripped(items, env);
    }
  }

  /** Replacing a list and reading it back returns the items, provided
      their JSON encodings decode back to them. */
  lemma SetAllThenGetAll(cache: Cache, cfg: Config, key: string, items: seq<Value>, ttl: Option<int>, env: Env)
    requires Configured(cfg)
    requires forall i :: 0 <= i < |items| ==> env.decode(env.encode(items[i])) == Ok(items[i])
    ensures var (c1, rep1) := Serve(cache, Pipeline(SetAllCommands(key, items, ttl, env)));
      && RedisListSetAll(cfg, key, items, ttl, env, rep1).1
      && RedisListGetAll(cfg, key, env, Serve(c1, Pipeline([["LRANGE", key, "0", "-1"]])).1).1 == items
  {
    SetAllThenGetAllDecoded(cache, cfg, key, items, ttl, env);
    assert RoundTripped(items, env) == items;
  }

  /** `LREM key 0 v` removes some element exactly when `v` is in the list. */
  lemma {:induction false} WithoutRemoves(xs: seq<string>, v: string)
    ensures |Without(xs, v)| < |xs| <==> v in xs
    ensures forall x :: x in xs && x != v ==> x in Without(xs, v)
    decreases |xs|
  {
    if xs != [] {
      WithoutRemoves(xs[1..], v);
      assert xs == [xs[0]] + xs[1..];
    }
  }

  /** Removing by value reports how many copies of its encoding the list
      held, keeps every other element, and leaves none behind; a list left
      empty is deleted, and no other key changes. */
  lemma RemoveByValueCounts(cache: Cache, cfg: Config, key: string, v: Value, env: Env)
    requires Configured(cfg) && key in cache && cache[key].Items?
    ensures var (c1, rep1) := Serve(cache, Pipeline([["LREM", key, "0", env.encode(v)]]));
      var xs := cache[key].xs;
      && (key !in c1 || c1[key].Items?)
      && ListAt(c1, key) == Without(xs, env.encode(v))
      && (key in c1 <==> Without(xs, env.encode(v)) != [])
      && c1 - {key} == cache - {key}
      && RedisListRemoveByValue(cfg, key, v, env, rep1).1 == Int(|xs| - |Without(xs, env.encode(v))|)
      && (|xs| - |Without(xs, env.encode(v))| > 0 <==> env.encode(v) in xs)
  {
    WithoutRemoves(cache[key].xs, env.encode(v));
    RunSingle(cache, ["LREM", key, "0", env.encode(v)]);
  }

  // -------------------------------------------------- calls against a server

  /** A Redis endpoint: `Serve`, or one that fails in any way it likes. */
  type Server = (Cache, Request) -> (Cache, Reply)

  function ServeAll(): Server {
    (c: Cache, req: Request) => Serve(c, req)
  }

  /** Sends `req`, if any; nothing sent means nothing answered. */
  function Send(server: Server, cache: Cache, req: Option<Request>): (Cache, Reply) {
    if req.None? then (cache, Failed) else server(cache, req.value)
  }

  /** `redis_list_get_all` against `server`. */
  function ListGetAllOn(server: Server, cache: Cache, cfg: Config, key: string, env: Env): (r: (Cache, seq<Value>))
    ensures !Configured(cfg) ==> r == (cache, [])
  {
    var (c1, rep) := Send(server, cache, RedisListGetAll(cfg, key, env, Failed).0);
    (c1, RedisListGetAll(cfg, key, env, rep).1)
  }

  /** `redis_list_set_all` against `server`. */
  function ListSetAllOn(server: Server, cache: Cache, cfg: Config, key: string, items: seq<Value>, ttl: Option<int>, env: Env): (r: (Cache, bool))
    ensures !Configured(cfg) ==> r == (cache, false)
  {
    var (c1, rep) := Send(server, cache, RedisListSetAll(cfg, key, items, ttl, env, Failed).0);
    (c1, RedisListSetAll(cfg, key, items, ttl, env, rep).1)
  }

  /** `redis_delete` against `server`. */
  function DeleteOn(server: Server, cache: Cache, cfg: Config, key: string): (r: (Cache, bool))
    ensures !Configured(cfg) ==> r == (cache, false)
  {
    var (c1, rep) := Send(server, cache, RedisDelete(cfg, key, Failed).0);
    (c1, RedisDelete(cfg, key, rep).1)
  }

  /** Against `Serve`, a list read leaves the cache as it was. */
  lemma ListGetAllOnServeKeeps(cache: Cache, cfg: Config, key: string, env: Env)
    ensures ListGetAllOn(ServeAll(), cache, cfg, key, env).0 == cache
  {
    if Configured(cfg) {
      var lrange: Command := ["LRANGE", key, "0", "-1"];
      RunSingle(cache, lrange);
    }
  }
}
