/** `doAction` and `getBasePath`: how a command becomes an HTTP request.
    The page's path is a parameter and the request is returned, not sent. */
module Actions {
  import opened JsValues

  /** An outbound request: HTTP method, URL and body. */
  datatype Request = Request(verb: string, url: string, body: string)

  predicate EndsWithSlash(s: string)
  {
    |s| > 0 && s[|s| - 1] == '/'
  }

  /** `getBasePath()` on `window.location.pathname`: drops one trailing `/`. */
  function GetBasePath(pathname: string): (r: string)
    ensures EndsWithSlash(pathname) ==> r + "/" == pathname
    ensures !EndsWithSlash(pathname) ==> r == pathname
  {
    if EndsWithSlash(pathname) then pathname[..|pathname| - 1] else pathname
  }

  /** `s.split(sep)` for a one-character separator. */
  function Split(s: string, sep: char): (parts: seq<string>)
    ensures |parts| > 0
    ensures forall i :: 0 <= i < |parts| ==> sep !in parts[i]
    decreases |s|
  {
    match IndexOf(s, sep)
    case None => [s]
    case Some(i) => [s[..i]] + Split(s[i + 1..], sep)
  }

  /** `parts.join(sep)`: the parts in order, one separator between each two. */
  function Join(parts: seq<string>, sep: char): (r: string)
    ensures |parts| > 0 ==> parts[0] <= r
    ensures |parts| > 1 ==> |parts[0]| < |r| && r[|parts[0]|] == sep
  {
    if parts == [] then ""
    else if |parts| == 1 then parts[0]
    else parts[0] + [sep] + Join(parts[1..], sep)
  }

  /** Splitting and joining on the same separator gives back the text. */
  lemma {:induction false} JoinSplit(s: string, sep: char)
    ensures Join(Split(s, sep), sep) == s
    decreases |s|
  {
    match IndexOf(s, sep)
    case None =>
    case Some(i) =>
      var tail := s[i + 1..];
      var parts := Split(s, sep);
      assert parts == [s[..i]] + Split(tail, sep);
      assert parts[1..] == Split(tail, sep);
      JoinSplit(tail, sep);
      assert Join(parts, sep) == s[..i] + [sep] + Join(parts[1..], sep);
      assert s == s[..i] + [sep] + tail;
  }

  /** The first separator after a part without one is the one that follows it. */
  lemma IndexOfAfterPart(a: string, sep: char, b: string)
    requires sep !in a
    ensures IndexOf(a + [sep] + b, sep) == Some(|a|)
  {
    var s := a + [sep] + b;
    assert s[|a|] == sep;
    assert s[..|a|] == a;
  }

  /** Joining parts that hold no separator and splitting again gives back the
      parts (so `split` and `join` are inverse both ways). */
  lemma {:induction false} SplitJoin(parts: seq<string>, sep: char)
    requires |parts| > 0
    requires forall i :: 0 <= i < |parts| ==> sep !in parts[i]
    ensures Split(Join(parts, sep), sep) == parts
    decreases |parts|
  {
    if |parts| > 1 {
      var rest := Join(parts[1..], sep);
      var s := parts[0] + [sep] + rest;
      assert Join(parts, sep) == s;
      IndexOfAfterPart(parts[0], sep, rest);
      assert s[..|parts[0]|] == parts[0];
      assert s[|parts[0]| + 1..] == rest;
      assert Split(s, sep) == [parts[0]] + Split(rest, sep);
      SplitJoin(parts[1..], sep);
      assert parts == [parts[0]] + parts[1..];
    }
  }

  /** The text before the first `-` (all of `id` when there is none). */
  function Domain(id: string): string
  {
    match IndexOf(id, '-')
    case None => id
    case Some(i) => id[..i]
  }

  /** The text after the first `-` (empty when there is none). */
  function EntityPath(id: string): string
  {
    match IndexOf(id, '-')
    case None => ""
    case Some(i) => id[i + 1..]
  }

  /** The domain and the entity path, joined by `-`, are the identifier. */
  lemma DomainEntityPathRoundTrip(id: string)
    ensures '-' !in Domain(id)
    ensures '-' in id ==> Domain(id) + "-" + EntityPath(id) == id
    ensures '-' !in id ==> Domain(id) == id && EntityPath(id) == ""
  {
    match IndexOf(id, '-')
    case None =>
    case Some(i) => assert id == id[..i] + [id[i]] + id[i + 1..];
  }

  /** Rejoining all segments but the first gives the text after the first `-`. */
  lemma SplitRestIsEntityPath(id: string)
    ensures Join(Split(id, '-')[1..], '-') == EntityPath(id)
  {
    match IndexOf(id, '-')
    case None =>
    case Some(i) =>
      assert Split(id, '-')[1..] == Split(id[i + 1..], '-');
      JoinSplit(id[i + 1..], '-');
  }

  /** `doAction(id, action)`: POST `"true"` to
      `<base>/<domain>/<entity path>/<action>`, where the domain is the first
      `-`-separated segment of `id` and the entity path the other segments
      rejoined with `-`. */
  function DoAction(id: string, action: string, pathname: string): (r: Request)
    ensures r.verb == "POST" && r.body == "true"
    ensures r.url == GetBasePath(pathname) + "/" + Domain(id) + "/" + EntityPath(id) + "/" + action
  {
    var parts := Split(id, '-');
    var domain := parts[0];
    var rest := Join(parts[1..], '-');
    SplitRestIsEntityPath(id);
    Request("POST", GetBasePath(pathname) + "/" + domain + "/" + rest + "/" + action, "true")
  }

  /** A stored command: the closures the listener installs, as data. */
  datatype Command =
    /** `(v) => doAction(id, "set?value=" + v)` */
    | SetValue(targetId: string)
    /** `() => doAction(id, action)` */
    | Fixed(targetId: string, action: string)

  /** Calling a stored command; `arg` is the argument a setter is called with
      (`None`: none given, which JavaScript renders as `undefined`). */
  function Run(c: Command, arg: Option<Value>, pathname: string): (r: Request)
    ensures r.verb == "POST" && r.body == "true"
    ensures c.SetValue? ==>
      r.url == GetBasePath(pathname) + "/" + Domain(c.targetId) + "/" + EntityPath(c.targetId) + "/" + ("set?value=" + ConcatText(arg))
    ensures c.Fixed? ==>
      r.url == GetBasePath(pathname) + "/" + Domain(c.targetId) + "/" + EntityPath(c.targetId) + "/" + c.action
  {
    match c
    case SetValue(id) => DoAction(id, "set?value=" + ConcatText(arg), pathname)
    case Fixed(id, action) => DoAction(id, action, pathname)
  }

  /** A setter called with an integer posts to the target's entity path with
      that integer, in decimal, as `value`; the integer reads back from it. */
  lemma SetValueRequest(id: string, v: int, pathname: string)
    ensures var r := Run(SetValue(id), Some(Int(v)), pathname);
      && r.verb == "POST" && r.body == "true"
      && r.url == GetBasePath(pathname) + "/" + Domain(id) + "/" + EntityPath(id) + "/" + ("set?value=" + IntToString(v))
      && StringToNumber(IntToString(v)) == Some(v)
  {
    StringToNumberOfIntToString(v);
  }
}
