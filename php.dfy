/** The part of the PHP runtime that the webhook payload code observes:
    dynamically typed values, ordered arrays, and the built-ins `trim`,
    `strtolower`, `gettype`, the `(bool)` cast and URL validation. */
module Php {

  datatype Option<+T> = None | Some(value: T)

  /** A PHP array key. */
  datatype Key = Index(n: int) | Name(s: string)

  /** A PHP value. An object carries the string its `__toString` method
      returns, or `None` when its class has no such method. */
  datatype Value =
    | Null
    | Bool(b: bool)
    | Int(i: int)
    | Float(f: real)
    | Str(s: string)
    | Arr(entries: seq<Entry>)
    | Obj(ref: object, toString: Option<string>)

  /** One key/value pair of a PHP array; an array is an ordered sequence of them. */
  datatype Entry = Entry(key: Key, val: Value)

  /** `gettype`. */
  function TypeName(v: Value): string
  {
    match v
    case Null => "NULL"
    case Bool(_) => "boolean"
    case Int(_) => "integer"
    case Float(_) => "double"
    case Str(_) => "string"
    case Arr(_) => "array"
    case Obj(_, _) => "object"
  }

  /** The `(bool)` cast: PHP's notion of a truthy value. */
  predicate ToBool(v: Value)
  {
    match v
    case Null => false
    case Bool(b) => b
    case Int(i) => i != 0
    case Float(f) => f != 0.0
    case Str(s) => s != "" && s != "0"
    case Arr(es) => es != []
    case Obj(_, _) => true
  }

  /** `(string) $v` for the values that have a string form the payload code
      accepts: strings, and objects whose class defines `__toString`. */
  function Stringify(v: Value): Option<string>
  {
    match v
    case Str(s) => Some(s)
    case Obj(_, Some(s)) => Some(s)
    case _ => None
  }

  // ---------------------------------------------------------------------
  // trim

  /** The characters PHP's `trim` strips by default: " \t\n\r\0\x0B". */
  predicate IsTrimChar(c: char)
  {
    c == ' ' || c == '\t' || c == '\n' || c == '\r' || c == '\0' || c == '\U{B}'
  }

  predicate AllTrimChars(s: string)
  {
    forall i :: 0 <= i < |s| ==> IsTrimChar(s[i])
  }

  /** Neither end of `s` is a character `trim` would strip. */
  predicate IsTrimmed(s: string)
  {
    s == [] || (!IsTrimChar(s[0]) && !IsTrimChar(s[|s| - 1]))
  }

  /** `s[i..j]` is what is left of `s` once the strippable characters at
      both ends are removed: everything before `i` and from `j` on can be
      stripped, and `s[i..j]` neither starts nor ends with such a character. */
  ghost predicate Strips(s: string, i: int, j: int)
  {
    0 <= i <= j <= |s| && AllTrimChars(s[..i]) && AllTrimChars(s[j..]) && IsTrimmed(s[i..j])
  }

  /** `ltrim`: no strippable character is left at the front. */
  function TrimStart(s: string): (r: string)
    ensures |r| <= |s|
    ensures r == [] || !IsTrimChar(r[0])
  {
    if s != [] && IsTrimChar(s[0]) then TrimStart(s[1..]) else s
  }

  /** `rtrim`: no strippable character is left at the back. */
  function TrimEnd(s: string): (r: string)
    ensures |r| <= |s|
    ensures r == [] || !IsTrimChar(r[|r| - 1])
  {
    if s != [] && IsTrimChar(s[|s| - 1]) then TrimEnd(s[..|s| - 1]) else s
  }

  /** `ltrim` only removes a strippable prefix. */
  lemma {:induction false} TrimStartSuffix(s: string)
    ensures var r := TrimStart(s); r == s[|s| - |r|..] && AllTrimChars(s[..|s| - |r|])
    decreases |s|
  {
    if s != [] && IsTrimChar(s[0]) {
      TrimStartSuffix(s[1..]);
      var r := TrimStart(s);
      assert s[1..][..|s| - 1 - |r|] == s[1..|s| - |r|];
    }
  }

  /** `rtrim` only removes a strippable suffix. */
  lemma {:induction false} TrimEndPrefix(s: string)
    ensures var r := TrimEnd(s); r == s[..|r|] && AllTrimChars(s[|r|..])
    decreases |s|
  {
    if s != [] && IsTrimChar(s[|s| - 1]) {
      TrimEndPrefix(s[..|s| - 1]);
    }
  }

  /** `trim`. */
  function Trim(s: string): (r: string)
    ensures IsTrimmed(r) && |r| <= |s|
  {
    var t := TrimStart(s);
    TrimEndPrefix(t);
    TrimEnd(t)
  }

  /** `trim` removes exactly a strippable prefix and a strippable suffix. */
  lemma TrimSplits(s: string)
    ensures var i := |s| - |TrimStart(s)|; Strips(s, i, i + |Trim(s)|) && Trim(s) == s[i..i + |Trim(s)|]
  {
    var t := TrimStart(s);
    TrimStartSuffix(s);
    TrimEndPrefix(t);
    var r := TrimEnd(t);
    var i, j := |s| - |t|, |s| - |t| + |r|;
    assert s[i..j] == r;
    assert AllTrimChars(s[j..]) by { assert s[j..] == t[|r|..]; }
  }

  lemma {:induction false} TrimStartDrops(pre: string, rest: string)
    requires AllTrimChars(pre)
    requires rest == [] || !IsTrimChar(rest[0])
    ensures TrimStart(pre + rest) == rest
    decreases |pre|
  {
    if pre != [] {
      assert (pre + rest)[1..] == pre[1..] + rest;
      TrimStartDrops(pre[1..], rest);
    }
  }

  lemma {:induction false} TrimEndDrops(rest: string, post: string)
    requires AllTrimChars(post)
    requires rest == [] || !IsTrimChar(rest[|rest| - 1])
    ensures TrimEnd(rest + post) == rest
    decreases |post|
  {
    if post != [] {
      assert (rest + post)[..|rest + post| - 1] == rest + post[..|post| - 1];
      TrimEndDrops(rest, post[..|post| - 1]);
    }
  }

  /** ... and no other split of `s` has that shape: whatever `i` and `j`
      `Strips` allows, `trim` returns `s[i..j]`. */
  lemma TrimUnique(s: string, i: int, j: int)
    requires Strips(s, i, j)
    ensures Trim(s) == s[i..j]
  {
    var r := s[i..j];
    if r == [] {
      assert AllTrimChars(s) by {
        forall k | 0 <= k < |s| ensures IsTrimChar(s[k]) {
          if k < i { assert s[k] == s[..i][k]; } else { assert s[k] == s[j..][k - j]; }
        }
      }
      TrimStartDrops(s, []);
      assert s + [] == s;
    } else {
      assert s == s[..i] + (r + s[j..]);
      TrimStartDrops(s[..i], r + s[j..]);
      TrimEndDrops(r, s[j..]);
    }
  }

  /** A string that has nothing to strip is its own trim. */
  lemma TrimFixesTrimmed(s: string)
    requires IsTrimmed(s)
    ensures Trim(s) == s
  {
    assert s[0..|s|] == s && s[..0] == [] && s[|s|..] == [];
    TrimUnique(s, 0, |s|);
  }

  /** `trim(trim(s)) == trim(s)`. */
  lemma TrimIdempotent(s: string)
    ensures Trim(Trim(s)) == Trim(s)
  {
    TrimFixesTrimmed(Trim(s));
  }

  // ---------------------------------------------------------------------
  // strtolower and URL parsing

  /** `strtolower` on one character: ASCII letters only. */
  function LowerChar(c: char): char
  {
    if 'A' <= c <= 'Z' then (c as int + 32) as char else c
  }

  /** `strtolower`: maps every ASCII upper-case letter to lower case and
      leaves every other character, and the length, as it is. */
  function Lower(s: string): (r: string)
    ensures |r| == |s|
    ensures forall i :: 0 <= i < |s| ==> r[i] == LowerChar(s[i])
  {
    seq(|s|, i requires 0 <= i < |s| => LowerChar(s[i]))
  }

  /** What the payload code uses of PHP's URL machinery, left uninterpreted:
      `validates(s)` says whether `filter_var($s, FILTER_VALIDATE_URL)`
      succeeds (it then returns `s` itself), and `scheme(s)` is
      `(string) parse_url($s, PHP_URL_SCHEME)` (empty when there is none). */
  datatype UrlFilter = UrlFilter(validates: string -> bool, scheme: string -> string)
}
