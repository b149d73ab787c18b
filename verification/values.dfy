/** Python values as the route handlers and services see them, the exceptions
    they raise, the external collaborators whose internals are not modelled,
    and the string operations the code relies on (`str.strip`, `str.lower`,
    `str.replace`, `str.startswith`, `str(int)`). */
module Values {

  datatype Option<+T> = None | Some(value: T)

  datatype Result<+T, +E> = Ok(value: T) | Err(error: E)

  /** A `datetime`: `stamp` is its position on the time line and `aware`
      tells a timezone-aware value from a naive one. */
  datatype DateTime = DateTime(stamp: int, aware: bool)

  /** A Python value: JSON data plus the few other objects the code meets.
      `Object(cls)` is any other object (a coroutine, a `JSONResponse`) and
      `ServerTimestamp` is Firestore's server-time sentinel. */
  datatype Value =
    | Null
    | Bool(b: bool)
    | Int(i: int)
    | Str(s: string)
    | List(items: seq<Value>)
    | Dict(fields: map<string, Value>)
    | StrSet(elems: set<string>)
    | Time(t: DateTime)
    | ServerTimestamp
    | Object(cls: string)

  /** Python truthiness (`if v:` / `not v`). */
  predicate Truthy(v: Value) {
    match v
    case Null => false
    case Bool(b) => b
    case Int(i) => i != 0
    case Str(s) => s != ""
    case List(xs) => |xs| > 0
    case Dict(m) => |m| > 0
    case StrSet(e) => |e| > 0
    case _ => true
  }

  /** `d.get(key, default)` on a dict. */
  function Get(m: map<string, Value>, key: string, default: Value): Value {
    if key in m then m[key] else default
  }

  /** The Python class name, as it appears in error messages. */
  function TypeName(v: Value): string {
    match v
    case Null => "NoneType"
    case Bool(_) => "bool"
    case Int(_) => "int"
    case Str(_) => "str"
    case List(_) => "list"
    case Dict(_) => "dict"
    case StrSet(_) => "set"
    case Time(_) => "datetime"
    case ServerTimestamp => "Sentinel"
    case Object(cls) => cls
  }

  /** `str(v)`: a string is itself, everything else prints as its `repr`. */
  function Show(v: Value): string {
    match v
    case Null => "None"
    case Bool(b) => if b then "True" else "False"
    case Int(i) => IntToString(i)
    case Str(s) => s
    case _ => Repr(v)
  }

  /** `repr(v)`. Containers print their elements' `repr`s joined by ", ";
      a dict's keys and a set's elements come in ascending order, since
      the model's dicts and sets keep no order of their own. A datetime,
      the server-time sentinel and other objects print as their class
      name in angle brackets (their calendar fields, UTC offset and memory
      address are not modelled). */
  function Repr(v: Value): (r: string)
    ensures v.List? ==> r == "[" + Join(Reprs(v.items), ", ") + "]"
    decreases v, 1
  {
    match v
    case Null => "None"
    case Bool(b) => if b then "True" else "False"
    case Int(i) => IntToString(i)
    case Str(s) => ReprStr(s)
    case List(xs) => "[" + Join(Reprs(xs), ", ") + "]"
    case Dict(m) =>
      var ks := Ascending(m.Keys);
      "{" + Join(seq(|ks|, i requires 0 <= i < |ks| => ReprStr(ks[i]) + ": " + Repr(m[ks[i]])), ", ") + "}"
    case StrSet(e) =>
      if e == {} then "set()"
      else var ks := Ascending(e); "{" + Join(seq(|ks|, i requires 0 <= i < |ks| => ReprStr(ks[i])), ", ") + "}"
    case _ => "<" + TypeName(v) + ">"
  }

  /** The `repr`s of the elements of a list. */
  function Reprs(xs: seq<Value>): (r: seq<string>)
    ensures |r| == |xs| && forall i :: 0 <= i < |xs| ==> r[i] == Repr(xs[i])
    decreases xs, 0
  {
    if |xs| == 0 then [] else [Repr(xs[0])] + Reprs(xs[1..])
  }

  /** Strings as Python `str` values, in order. */
  function Strs(xs: seq<string>): (r: seq<Value>)
    ensures |r| == |xs| && forall i :: 0 <= i < |xs| ==> r[i] == Str(xs[i])
  {
    seq(|xs|, i requires 0 <= i < |xs| => Str(xs[i]))
  }

  /** `repr(s)` for a string: single quotes, or double quotes when the text
      holds a single quote and no double quote. */
  function ReprStr(s: string): string {
    var q := if '\'' in s && '"' !in s then '"' else '\'';
    [q] + Escaped(s, q) + [q]
  }

  /** The body of a string's `repr` quoted with `q`. */
  function Escaped(s: string, q: char): (r: string)
    ensures |r| >= |s|
  {
    if |s| == 0 then "" else EscapeChar(s[0], q) + Escaped(s[1..], q)
  }

  /** How `repr` writes one character inside quotes `q`: the quote and the
      backslash are escaped, tab, newline and carriage return get their
      short escapes, other ASCII control characters a `\x` escape. Every
      non-ASCII character is taken as printable. */
  function EscapeChar(c: char, q: char): (r: string)
    ensures |r| >= 1
  {
    if c == q || c == '\\' then ['\\', c]
    else if c == '\n' then "\\n"
    else if c == '\r' then "\\r"
    else if c == '\t' then "\\t"
    else if c < ' ' || c == '\U{7F}' then "\\x" + [HexDigit(c as int / 16), HexDigit(c as int % 16)]
    else [c]
  }

  function HexDigit(d: nat): char
    requires d < 16
  {
    "0123456789abcdef"[d]
  }

  /** A character `repr` writes as itself inside single quotes. */
  predicate PlainChar(c: char) {
    c != '\'' && c != '\\' && ' ' <= c && c != '\U{7F}'
  }

  /** A string of plain characters is quoted as it stands. */
  lemma {:induction false} PlainReprStr(s: string)
    requires forall i :: 0 <= i < |s| ==> PlainChar(s[i])
    ensures ReprStr(s) == "'" + s + "'"
  {
    PlainEscaped(s);
  }

  lemma {:induction false} PlainEscaped(s: string)
    requires forall i :: 0 <= i < |s| ==> PlainChar(s[i])
    ensures Escaped(s, '\'') == s
    decreases |s|
  {
    if |s| > 0 {
      PlainEscaped(s[1..]);
      assert s == [s[0]] + s[1..];
    }
  }

  /** `sep.join(xs)`. */
  function Join(xs: seq<string>, sep: string): string
    decreases |xs|
  {
    if |xs| == 0 then ""
    else if |xs| == 1 then xs[0]
    else xs[0] + sep + Join(xs[1..], sep)
  }

  /** `s.split(sep)`: the pieces between the occurrences of `sep`, found
      left to right without overlap. */
  function SplitOn(s: string, sep: string): (r: seq<string>)
    requires |sep| > 0
    ensures |r| > 0
    decreases |s|
  {
    if |s| < |sep| then [s]
    else if s[..|sep|] == sep then [""] + SplitOn(s[|sep|..], sep)
    else var rest := SplitOn(s[1..], sep); [[s[0]] + rest[0]] + rest[1..]
  }

  /** A piece holding no character of the separator's first one comes back
      whole, and the split goes on after the separator that follows it. */
  lemma {:induction false} SplitOnPiece(a: string, sep: string, t: string)
    requires |sep| > 0 && sep[0] !in a
    ensures SplitOn(a + sep + t, sep) == [a] + SplitOn(t, sep)
    decreases |a|
  {
    var s := a + sep + t;
    if |a| == 0 {
      assert s == sep + t && s[..|sep|] == sep && s[|sep|..] == t;
    } else {
      assert s[0] == a[0] != sep[0];
      assert s[..|sep|] != sep;
      assert s[1..] == a[1..] + sep + t;
      SplitOnPiece(a[1..], sep, t);
      assert [s[0]] + a[1..] == a;
    }
  }

  lemma {:induction false} SplitOnWhole(a: string, sep: string)
    requires |sep| > 0 && sep[0] !in a
    ensures SplitOn(a, sep) == [a]
    decreases |a|
  {
    if |a| >= |sep| {
      assert a[0] != sep[0] && a[..|sep|] != sep;
      SplitOnWhole(a[1..], sep);
      assert [a[0]] + a[1..] == a;
    }
  }

  /** Splitting a join gives the pieces back when none of them holds the
      separator's first character. */
  lemma {:induction false} SplitJoin(xs: seq<string>, sep: string)
    requires |xs| > 0 && |sep| > 0
    requires forall i :: 0 <= i < |xs| ==> sep[0] !in xs[i]
    ensures SplitOn(Join(xs, sep), sep) == xs
    decreases |xs|
  {
    if |xs| == 1 {
      SplitOnWhole(xs[0], sep);
    } else {
      SplitJoin(xs[1..], sep);
      SplitOnPiece(xs[0], sep, Join(xs[1..], sep));
      assert xs == [xs[0]] + xs[1..];
    }
  }

  // ------------------------------------------------------- ascending order

  /** Lexicographic order on strings by code point, `a <= b`. */
  predicate Below(a: string, b: string)
    decreases |a|
  {
    |a| == 0 || (|b| > 0 && (a[0] < b[0] || (a[0] == b[0] && Below(a[1..], b[1..]))))
  }

  lemma {:induction false} BelowRefl(a: string)
    ensures Below(a, a)
    decreases |a|
  {
    if |a| > 0 {
      BelowRefl(a[1..]);
    }
  }

  lemma {:induction false} BelowTotal(a: string, b: string)
    ensures Below(a, b) || Below(b, a)
    decreases |a|
  {
    if |a| > 0 && |b| > 0 && a[0] == b[0] {
      BelowTotal(a[1..], b[1..]);
    }
  }

  lemma {:induction false} BelowAntisymmetric(a: string, b: string)
    requires Below(a, b) && Below(b, a)
    ensures a == b
    decreases |a|
  {
    if |a| > 0 {
      BelowAntisymmetric(a[1..], b[1..]);
      assert a == [a[0]] + a[1..] && b == [b[0]] + b[1..];
    }
  }

  lemma {:induction false} BelowTransitive(a: string, b: string, c: string)
    requires Below(a, b) && Below(b, c)
    ensures Below(a, c)
    decreases |a|
  {
    if |a| > 0 && a[0] == b[0] && b[0] == c[0] {
      BelowTransitive(a[1..], b[1..], c[1..]);
    }
  }

  /** Every finite non-empty set of strings has a least element. */
  lemma {:induction false} LeastOf(e: set<string>) returns (m: string)
    requires e != {}
    ensures m in e && forall y :: y in e ==> Below(m, y)
    decreases |e|
  {
    var x :| x in e;
    BelowRefl(x);
    if e == {x} {
      m := x;
    } else {
      var m' := LeastOf(e - {x});
      BelowTotal(x, m');
      if Below(x, m') {
        m := x;
        forall y | y in e
          ensures Below(x, y)
        {
          if y != x {
            BelowTransitive(x, m', y);
          }
        }
      } else {
        m := m';
      }
    }
  }

  lemma HasLeast(e: set<string>)
    requires e != {}
    ensures exists m :: m in e && forall y :: y in e ==> Below(m, y)
  {
    var m := LeastOf(e);
  }

  /** The least element of a non-empty set of strings. */
  function Least(e: set<string>): (m: string)
    requires e != {}
    ensures m in e && forall y :: y in e ==> Below(m, y)
  {
    HasLeast(e);
    BelowAntisymmetricAll();
    var m :| m in e && forall y :: y in e ==> Below(m, y);
    m
  }

  lemma BelowAntisymmetricAll()
    ensures forall a, b :: Below(a, b) && Below(b, a) ==> a == b
  {
    forall a, b | Below(a, b) && Below(b, a)
      ensures a == b
    {
      BelowAntisymmetric(a, b);
    }
  }

  /** `order` lists the elements of `e` once each: one of the orders a set
      may iterate in. */
  predicate Enumerates(order: seq<string>, e: set<string>) {
    && (forall i | 0 <= i < |order| :: order[i] in e)
    && (forall x | x in e :: x in order)
    && (forall i, j | 0 <= i < j < |order| :: order[i] != order[j])
  }

  /** The elements of `e` in ascending order. */
  function Ascending(e: set<string>): (r: seq<string>)
    ensures Enumerates(r, e)
    ensures forall i, j :: 0 <= i < j < |r| ==> Below(r[i], r[j])
    decreases |e|
  {
    if e == {} then []
    else
      var m := Least(e);
      var rest := Ascending(e - {m});
      assert forall i :: 0 <= i < |rest| ==> rest[i] in e - {m};
      [m] + rest
  }

  /** The exceptions the code raises or lets through. `Raised` is a bare
      `Exception(...)` or an error coming out of an external service. */
  datatype Exc =
    | HttpException(status: int, detail: string)
    | ValueError(msg: string)
    | JsonDecodeError(msg: string)
    | TypeError(msg: string)
    | KeyError(repr: string)
    | AttributeError(msg: string)
    | UnboundLocalError(name: string)
    | IndexError(msg: string)
    | ValidationError(model: string)
    | Raised(msg: string)

  /** `str(e)`; Pydantic's multi-line validation report is abbreviated to its
      first line, and Starlette renders an `HTTPException` as "status: detail". */
  function Text(e: Exc): string {
    match e
    case HttpException(status, detail) => IntToString(status) + ": " + detail
    case ValueError(m) => m
    case JsonDecodeError(m) => m
    case TypeError(m) => m
    case KeyError(r) => r
    case AttributeError(m) => m
    case UnboundLocalError(n) =>
      "cannot access local variable '" + n + "' where it is not associated with a value"
    case IndexError(m) => m
    case ValidationError(model) => "validation error for " + model
    case Raised(m) => m
  }

  /** The `AttributeError` Python raises for `v.name` on an object lacking it. */
  function NoAttribute(v: Value, name: string): Exc {
    AttributeError("'" + TypeName(v) + "' object has no attribute '" + name + "'")
  }

  /** `d[key]` raising on a missing string key. */
  function MissingKey(key: string): Exc {
    KeyError("'" + key + "'")
  }

  /** The values `key in v` accepts: dicts, lists, sets and strings. */
  predicate Iterable(v: Value) {
    v.Dict? || v.List? || v.StrSet? || v.Str?
  }

  /** `key in v` for a string key on an iterable value: membership for
      containers, substring for strings. */
  predicate Member(key: string, v: Value)
    requires Iterable(v)
  {
    match v
    case Dict(m) => key in m
    case List(xs) => Str(key) in xs
    case StrSet(e) => key in e
    case Str(s) => Contains(s, key)
  }

  /** The `TypeError` `key in v` raises on anything else. */
  function NotIterable(v: Value): Exc {
    TypeError("argument of type '" + TypeName(v) + "' is not iterable")
  }

  /** `v[key]` for a string key. */
  function PyIndex(v: Value, key: string): (r: Result<Value, Exc>)
    ensures r.Ok? <==> v.Dict? && key in v.fields
    ensures r.Ok? ==> r.value == v.fields[key]
  {
    match v
    case Dict(m) => if key in m then Ok(m[key]) else Err(MissingKey(key))
    case List(_) => Err(TypeError("list indices must be integers or slices, not str"))
    case Str(_) => Err(TypeError("string indices must be integers, not 'str'"))
    case _ => Err(TypeError("'" + TypeName(v) + "' object is not subscriptable"))
  }

  /** `v[k]` for a non-negative integer index. */
  function PyAt(v: Value, k: nat): (r: Result<Value, Exc>)
    ensures r.Ok? ==> (v.List? && k < |v.items| && r.value == v.items[k]) || (v.Str? && k < |v.s|)
  {
    match v
    case List(xs) => if k < |xs| then Ok(xs[k]) else Err(IndexError("list index out of range"))
    case Str(s) => if k < |s| then Ok(Str([s[k]])) else Err(IndexError("string index out of range"))
    case Dict(m) => Err(KeyError(NatToString(k)))
    case _ => Err(TypeError("'" + TypeName(v) + "' object is not subscriptable"))
  }

  /** Reads `keys` of `v` in order, as an f-string or a run of assignments
      does, failing on the first one that cannot be read. */
  function ReadKeys(v: Value, keys: seq<string>): (r: Result<(), Exc>)
    ensures r.Ok? <==> forall k :: k in keys ==> v.Dict? && k in v.fields
    decreases |keys|
  {
    if |keys| == 0 then Ok(())
    else match PyIndex(v, keys[0])
      case Err(e) => assert keys[0] in keys; Err(e)
      case Ok(_) =>
        var r := ReadKeys(v, keys[1..]);
        assert forall k :: k in keys ==> k == keys[0] || k in keys[1..];
        r
  }

  /** On a dict, the read fails with a `KeyError` naming the first key
      that is absent. */
  lemma {:induction false} ReadKeysFirstMissing(m: map<string, Value>, keys: seq<string>, i: nat)
    requires i < |keys| && keys[i] !in m
    requires forall j :: 0 <= j < i ==> keys[j] in m
    ensures ReadKeys(Dict(m), keys) == Err(MissingKey(keys[i]))
    decreases i
  {
    if i > 0 {
      ReadKeysFirstMissing(m, keys[1..], i - 1);
    }
  }

  /** Collaborators whose internals are not modelled: `datetime.fromisoformat`,
      `json.loads` (with the decoder's message on failure) and `json.dumps`
      with the Firestore encoder. */
  datatype Env = Env(
    parse: string -> Option<DateTime>,
    decode: string -> Result<Value, string>,
    encode: Value -> string)

  // ---------------------------------------------------------------- strings

  function DigitChar(d: nat): char
    requires d < 10
  {
    "0123456789"[d]
  }

  function NatToString(n: nat): (r: string)
    ensures |r| > 0
    decreases n
  {
    if n < 10 then [DigitChar(n)] else NatToString(n / 10) + [DigitChar(n % 10)]
  }

  lemma DigitCharInjective(a: nat, b: nat)
    requires a < 10 && b < 10 && DigitChar(a) == DigitChar(b)
    ensures a == b
  {
    var digits := "0123456789";
    assert forall i, j :: 0 <= i < j < 10 ==> digits[i] != digits[j];
  }

  /** Different numbers print differently. */
  lemma {:induction false} NatToStringInjective(a: nat, b: nat)
    requires NatToString(a) == NatToString(b)
    ensures a == b
    decreases a
  {
    var sa, sb := NatToString(a), NatToString(b);
    if a < 10 && b < 10 {
      DigitCharInjective(a, b);
    } else if a >= 10 && b >= 10 {
      var pa, pb := NatToString(a / 10), NatToString(b / 10);
      assert sa == pa + [DigitChar(a % 10)] && sb == pb + [DigitChar(b % 10)];
      assert |pa| == |pb|;
      assert pa == sa[..|pa|] && pb == sb[..|pb|];
      DigitCharInjective(a % 10, b % 10);
      NatToStringInjective(a / 10, b / 10);
    }
  }

  /** `str(i)` for an `int`. */
  function IntToString(i: int): string {
    if i < 0 then "-" + NatToString(-i) else NatToString(i)
  }

  /** The ASCII whitespace `str.strip()` removes (Unicode spaces are not modelled). */
  predicate IsSpace(c: char) {
    c == ' ' || c == '\t' || c == '\n' || c == '\r' || c == '\U{0B}' || c == '\U{0C}'
  }

  /** `s.lstrip()`: the longest suffix of `s` that does not start with whitespace. */
  function LStrip(s: string): (r: string)
    ensures |r| <= |s| && r == s[|s| - |r|..]
    ensures r == [] || !IsSpace(r[0])
    ensures forall i :: 0 <= i < |s| - |r| ==> IsSpace(s[i])
  {
    if |s| > 0 && IsSpace(s[0]) then LStrip(s[1..]) else s
  }

  /** `s.rstrip()`: the longest prefix of `s` that does not end with whitespace. */
  function RStrip(s: string): (r: string)
    ensures |r| <= |s| && r == s[..|r|]
    ensures r == [] || !IsSpace(r[|r| - 1])
    ensures forall i :: |r| <= i < |s| ==> IsSpace(s[i])
  {
    if |s| > 0 && IsSpace(s[|s| - 1]) then RStrip(s[..|s| - 1]) else s
  }

  /** `s.strip()`. */
  function Strip(s: string): string {
    RStrip(LStrip(s))
  }

  /** A string `strip()` leaves alone. */
  predicate Stripped(s: string) {
    s == [] || (!IsSpace(s[0]) && !IsSpace(s[|s| - 1]))
  }

  lemma StripIsStripped(s: string)
    ensures Stripped(Strip(s))
  {
    var l := LStrip(s);
    var r := RStrip(l);
    if r != [] {
      assert r == l[..|r|];
      assert r[0] == l[0];
    }
  }

  lemma StrippedFixed(s: string)
    requires Stripped(s)
    ensures Strip(s) == s
  {
  }

  function LowerChar(c: char): char {
    if 'A' <= c <= 'Z' then (c as int + 32) as char else c
  }

  /** `s.lower()` on ASCII letters (Unicode case mapping is not modelled). */
  function Lower(s: string): (r: string)
    ensures |r| == |s|
    ensures forall i :: 0 <= i < |s| ==> r[i] == LowerChar(s[i])
  {
    seq(|s|, i requires 0 <= i < |s| => LowerChar(s[i]))
  }

  predicate StartsWith(s: string, p: string) {
    |p| <= |s| && s[..|p|] == p
  }

  predicate EndsWith(s: string, p: string) {
    |p| <= |s| && s[|s| - |p|..] == p
  }

  /** `p` occurs in `s` at index `i`. */
  predicate OccursAt(s: string, p: string, i: int) {
    0 <= i <= |s| - |p| && s[i..i + |p|] == p
  }

  /** `p in s` for strings. */
  predicate Contains(s: string, p: string) {
    exists i | 0 <= i <= |s| - |p| :: OccursAt(s, p, i)
  }

  /** `s[:n]`. */
  function Take(s: string, n: nat): string {
    if |s| <= n then s else s[..n]
  }

  /** `s.replace(pat, rep)`: every occurrence of `pat`, scanning left to
      right without overlap, is replaced by `rep`. */
  function ReplaceAll(s: string, pat: string, rep: string): string
    requires |pat| > 0
    decreases |s|
  {
    if |s| < |pat| then s
    else if s[..|pat|] == pat then rep + ReplaceAll(s[|pat|..], pat, rep)
    else [s[0]] + ReplaceAll(s[1..], pat, rep)
  }

  /** Replacing a pattern that does not occur changes nothing. */
  lemma {:induction false} ReplaceAbsent(s: string, pat: string, rep: string)
    requires |pat| > 0
    requires !Contains(s, pat)
    ensures ReplaceAll(s, pat, rep) == s
    decreases |s|
  {
    if |s| >= |pat| {
      assert !OccursAt(s, pat, 0);
      assert !Contains(s[1..], pat) by {
        forall i | 0 <= i <= |s[1..]| - |pat|
          ensures !OccursAt(s[1..], pat, i)
        {
          assert s[1..][i..i + |pat|] == s[i + 1..i + 1 + |pat|];
          assert !OccursAt(s, pat, i + 1);
        }
      }
      ReplaceAbsent(s[1..], pat, rep);
      assert s == [s[0]] + s[1..];
    }
  }

  /** Every character of `s` other than `c` survives `s.replace(c, rep)`,
      and no `c` does when `rep` has none. */
  lemma {:induction false} ReplaceCharRemoves(s: string, c: char, rep: string)
    requires c !in rep
    ensures c !in ReplaceAll(s, [c], rep)
    decreases |s|
  {
    if |s| >= 1 {
      ReplaceCharRemoves(s[1..], c, rep);
    }
  }
}
