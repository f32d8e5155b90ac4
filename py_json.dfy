/**
 * Python values as the SDK sees them once a JSON payload has been parsed
 * (dicts, lists, strings, integers, booleans, None), Python's truthiness,
 * and the exceptions the modelled code can raise.
 */
module PyJson {

  datatype Option<+T> = None | Some(value: T)

  /** A parsed JSON value; `JObj` is a Python dict, `JArr` a Python list. */
  datatype Json =
    | JNull
    | JBool(b: bool)
    | JNum(n: int)
    | JStr(s: string)
    | JArr(items: seq<Json>)
    | JObj(fields: map<string, Json>)

  /** The exception classes the modelled code can raise. */
  datatype PyError = KeyError | TypeError | AttributeError | ValueError

  /** What a Python call does: return a value or raise. */
  datatype Outcome<+T> = Returned(value: T) | Raised(error: PyError)

  /** `bool(j)` in Python. */
  predicate Truthy(j: Json) {
    match j
    case JNull => false
    case JBool(b) => b
    case JNum(n) => n != 0
    case JStr(s) => s != ""
    case JArr(xs) => xs != []
    case JObj(m) => m != map[]
  }

  /** `bool(o)` for an optional string (`None` and `""` are falsy). */
  predicate TruthyStr(o: Option<string>) {
    o.Some? && o.value != ""
  }

  /** `o or default` for an optional string. */
  function OrElse(o: Option<string>, default: string): string {
    if TruthyStr(o) then o.value else default
  }

  /** An optional string as a JSON value (`None` becomes null). */
  function OptStr(o: Option<string>): Json {
    if o.Some? then JStr(o.value) else JNull
  }

  /** How an f-string renders an optional string (`None` renders as "None"). */
  function Render(o: Option<string>): string {
    if o.Some? then o.value else "None"
  }

  /** An empty dict, the `{}` default of `.get`. */
  const EmptyObj: Json := JObj(map[])

  /** `d.get(key, default)`: only a dict has `.get`. */
  function Get(d: Json, key: string, default: Json): Outcome<Json> {
    if !d.JObj? then Raised(AttributeError)
    else if key in d.fields then Returned(d.fields[key])
    else Returned(default)
  }

  /** `d[key]` with a string key: a dict lacking the key raises KeyError, anything else TypeError. */
  function Index(d: Json, key: string): Outcome<Json> {
    if !d.JObj? then Raised(TypeError)
    else if key in d.fields then Returned(d.fields[key])
    else Raised(KeyError)
  }

  /** `d[a][b]`. */
  function Index2(d: Json, a: string, b: string): Outcome<Json> {
    match Index(d, a)
    case Raised(e) => Raised(e)
    case Returned(x) => Index(x, b)
  }

  /** `d[a][b][c]`. */
  function Index3(d: Json, a: string, b: string, c: string): Outcome<Json> {
    match Index2(d, a, b)
    case Raised(e) => Raised(e)
    case Returned(x) => Index(x, c)
  }

  /** `sub in s` for strings. */
  predicate IsSubstring(sub: string, s: string)
    decreases |s|
  {
    (|sub| <= |s| && s[..|sub|] == sub) || (s != [] && IsSubstring(sub, s[1..]))
  }

  /** `key in container`: a dict tests its keys, a list its elements, a string its substrings. */
  function Contains(container: Json, key: string): Outcome<bool> {
    match container
    case JObj(m) => Returned(key in m)
    case JArr(xs) => Returned(JStr(key) in xs)
    case JStr(s) => Returned(IsSubstring(key, s))
    case _ => Raised(TypeError)
  }

  /** A number as Python arithmetic sees it (`bool` is a subclass of `int`). */
  function AsInt(j: Json): Option<int> {
    match j
    case JNum(n) => Some(n)
    case JBool(b) => Some(if b then 1 else 0)
    case _ => None
  }

  function Min(a: int, b: int): int {
    if a <= b then a else b
  }
  /** `a or b` for optional strings: `a` when it is truthy, `b` otherwise. */
  function Or(a: Option<string>, b: Option<string>): (r: Option<string>)
    ensures TruthyStr(a) ==> r == a
    ensures !TruthyStr(a) ==> r == b
  {
    if TruthyStr(a) then a else b
  }

  /** `sep.join(xs)`. */
  function Join(sep: string, xs: seq<string>): string
  {
    if xs == [] then "" else if |xs| == 1 then xs[0] else xs[0] + sep + Join(sep, xs[1..])
  }

  /** `s.split(c)` for a one-character separator: the pieces between the separators, empty ones included. */
  function Split(s: string, c: char): (parts: seq<string>)
    ensures |parts| >= 1
    decreases |s|
  {
    if s == [] then [""]
    else if s[0] == c then [""] + Split(s[1..], c)
    else var rest := Split(s[1..], c); [[s[0]] + rest[0]] + rest[1..]
  }

  /** A piece free of the separator stays whole: it is glued to the first piece of what follows. */
  lemma {:induction false} SplitWord(w: string, t: string, c: char)
    requires c !in w
    ensures Split(w + t, c) == [w + Split(t, c)[0]] + Split(t, c)[1..]
  {
    if w != [] {
      assert (w + t)[0] == w[0];
      assert (w + t)[1..] == w[1..] + t;
      SplitWord(w[1..], t, c);
      assert [w[0]] + (w[1..] + Split(t, c)[0]) == w + Split(t, c)[0];
    } else {
      var parts := Split(t, c);
      assert w + t == t && w + parts[0] == parts[0];
      assert [parts[0]] + parts[1..] == parts;
    }
  }

  /** Joining one-character-separated pieces that do not contain the separator, then splitting, gives them back. */
  lemma {:induction false} SplitJoin(xs: seq<string>, c: char)
    requires xs != []
    requires forall i :: 0 <= i < |xs| ==> c !in xs[i]
    ensures Split(Join([c], xs), c) == xs
  {
    if |xs| == 1 {
      SplitWord(xs[0], "", c);
      assert xs[0] + "" == xs[0];
    } else {
      var rest := Join([c], xs[1..]);
      SplitJoin(xs[1..], c);
      assert xs[0] + [c] + rest == xs[0] + ([c] + rest);
      SplitWord(xs[0], [c] + rest, c);
      assert ([c] + rest)[0] == c && ([c] + rest)[1..] == rest;
      assert Split([c] + rest, c) == [""] + xs[1..];
      assert xs[0] + "" == xs[0];
      assert [xs[0]] + xs[1..] == xs;
    }
  }

  /** Joining one more piece adds the separator and the piece at the end. */
  lemma {:induction false} JoinSnoc(sep: string, xs: seq<string>, x: string)
    requires xs != []
    ensures Join(sep, xs + [x]) == Join(sep, xs) + sep + x
  {
    if |xs| == 1 {
      assert xs + [x] == [xs[0], x];
    } else {
      assert (xs + [x])[1..] == xs[1..] + [x];
      JoinSnoc(sep, xs[1..], x);
    }
  }
}
