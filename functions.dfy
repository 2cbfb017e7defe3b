/** The three stateless helpers every setter and serializer goes through:
    `filter_string`, `filter_uri` and `filter_array_value`, plus the
    `array_filter` call that applies the last one. */
module Functions {
  import opened Php

  /** What the payload code raises. All but the last are the library's own
      `Exception`; `TooFewArguments` is PHP's `ArgumentCountError`. */
  datatype Exception =
    | NotStringable(name: string, given: string)  // filter_string: name and gettype of the value
    | MalformedUrl(raw: Value)                    // filter_uri: FILTER_VALIDATE_URL failed
    | SchemeNotAllowed(raw: Value)                // filter_uri: scheme is not http or https
    | NotAnAttachment                             // Message::attachment: neither callable nor Attachment
    | TooFewArguments(count: nat)                 // Attachment::field called with fewer than two values

  /** A call that either returns a value or raises. */
  datatype Result<+T> = Ok(value: T) | Err(error: Exception)

  /** `filter_string($var, $name)`: a string, or an object with `__toString`,
      comes back trimmed; anything else raises an exception naming `name`
      and the value's type. */
  function FilterString(v: Value, name: string): (r: Result<string>)
    ensures r.Ok? <==> Stringify(v).Some?
    ensures r.Ok? ==> r.value == Trim(Stringify(v).value)
    ensures r.Err? ==> r.error == NotStringable(name, TypeName(v))
  {
    match Stringify(v)
    case Some(s) => Ok(Trim(s))
    case None => Err(NotStringable(name, TypeName(v)))
  }

  /** Filtering the output of `filter_string` again changes nothing. */
  lemma FilterStringIdempotent(v: Value, name: string, name': string)
    requires FilterString(v, name).Ok?
    ensures FilterString(Str(FilterString(v, name).value), name') == FilterString(v, name)
  {
    TrimIdempotent(Stringify(v).value);
  }

  /** The two schemes `filter_uri` lets through. */
  predicate IsHttpScheme(scheme: string)
  {
    scheme == "http" || scheme == "https"
  }

  /** `a` spells `b` with any of `b`'s lower-case ASCII letters written in
      upper case instead. */
  predicate SameIgnoringCase(a: string, b: string)
  {
    |a| == |b| &&
    forall i :: 0 <= i < |a| ==> a[i] == b[i] || ('a' <= b[i] <= 'z' && a[i] as int == b[i] as int - 32)
  }

  /** The scheme test of `filter_uri` lower-cases before comparing, so it
      accepts exactly the spellings of "http" and "https" in any mix of
      upper and lower case, and nothing else. */
  lemma HttpSchemeIgnoresCase(s: string)
    ensures IsHttpScheme(Lower(s)) <==> SameIgnoringCase(s, "http") || SameIgnoringCase(s, "https")
  {
    if SameIgnoringCase(s, "http") {
      assert Lower(s) == "http";
    }
    if SameIgnoringCase(s, "https") {
      assert Lower(s) == "https";
    }
    if Lower(s) == "http" || Lower(s) == "https" {
      var t := Lower(s);
      forall i | 0 <= i < |s|
        ensures s[i] == t[i] || ('a' <= t[i] <= 'z' && s[i] as int == t[i] as int - 32)
      {
        assert t[i] == LowerChar(s[i]);
      }
    }
  }

  /** `s` passes `filter_var(..., FILTER_VALIDATE_URL)` and the value it
      returns, `s` itself, is truthy (so neither "" nor "0"). */
  predicate ValidatesAsUrl(urls: UrlFilter, s: string)
  {
    urls.validates(s) && ToBool(Str(s))
  }

  /** The values `filter_uri` can return: trimmed, valid, http or https. */
  predicate IsAcceptedUrl(urls: UrlFilter, u: string)
  {
    IsTrimmed(u) && ValidatesAsUrl(urls, u) && IsHttpScheme(Lower(urls.scheme(u)))
  }

  /** `filter_uri($raw_url)`: trims the value through `filter_string` (which
      is always told its name is 'name'), then requires URL validation and
      an http/https scheme, compared case-insensitively. */
  function FilterUri(raw: Value, urls: UrlFilter): (r: Result<string>)
    ensures r.Ok? <==> Stringify(raw).Some? && IsAcceptedUrl(urls, Trim(Stringify(raw).value))
    ensures r.Ok? ==> r.value == Trim(Stringify(raw).value) && IsAcceptedUrl(urls, r.value)
    ensures Stringify(raw).None? ==> r == Err(NotStringable("name", TypeName(raw)))
    ensures Stringify(raw).Some? && !ValidatesAsUrl(urls, Trim(Stringify(raw).value)) ==> r == Err(MalformedUrl(raw))
    ensures (Stringify(raw).Some? && ValidatesAsUrl(urls, Trim(Stringify(raw).value))
             && !IsHttpScheme(Lower(urls.scheme(Trim(Stringify(raw).value))))) ==> r == Err(SchemeNotAllowed(raw))
  {
    match FilterString(raw, "name")
    case Err(e) => Err(e)
    case Ok(url) =>
      if !ValidatesAsUrl(urls, url) then Err(MalformedUrl(raw))
      else if !IsHttpScheme(Lower(urls.scheme(url))) then Err(SchemeNotAllowed(raw))
      else Ok(url)
  }

  /** An accepted URL is a fixed point of `filter_uri`. */
  lemma FilterUriFixesAccepted(u: string, urls: UrlFilter)
    requires IsAcceptedUrl(urls, u)
    ensures FilterUri(Str(u), urls) == Ok(u)
  {
    assert Trim(u) == u by { TrimFixesTrimmed(u); }
    assert Stringify(Str(u)) == Some(u);
  }

  /** The facts about PHP's URL validation that the library's tests rely on:
      a scheme-relative URL does not validate, `wss://github.com` (if it
      validates) has scheme `wss`, and `https://example.com/photo.png` is
      valid with scheme `https`. */
  predicate AgreesWithPhp(urls: UrlFilter)
  {
    && !urls.validates("//github.com")
    && (urls.validates("wss://github.com") ==> urls.scheme("wss://github.com") == "wss")
    && urls.validates("https://example.com/photo.png")
    && urls.scheme("https://example.com/photo.png") == "https"
  }

  /** `filter_uri` rejects the empty string whatever the validator says:
      the value `filter_var` would return for it is falsy. */
  lemma FilterUriRejectsEmpty(urls: UrlFilter)
    ensures FilterUri(Str(""), urls) == Err(MalformedUrl(Str("")))
    ensures FilterUri(Str(" \t\n"), urls) == Err(MalformedUrl(Str(" \t\n")))
  {
    assert Trim("") == "" by { TrimFixesTrimmed(""); }
    assert Trim(" \t\n") == "" by {
      assert Strips(" \t\n", 0, 0);
      TrimUnique(" \t\n", 0, 0);
    }
  }

  /** Under PHP's validator, the scheme-relative `//github.com` is malformed. */
  lemma FilterUriRejectsSchemeRelative(urls: UrlFilter)
    requires AgreesWithPhp(urls)
    ensures FilterUri(Str("//github.com"), urls) == Err(MalformedUrl(Str("//github.com")))
  {
    MalformedWhenInvalid("//github.com", urls);
  }

  /** A string with nothing to trim that does not validate is malformed. */
  lemma MalformedWhenInvalid(u: string, urls: UrlFilter)
    requires IsTrimmed(u) && !ValidatesAsUrl(urls, u)
    ensures FilterUri(Str(u), urls) == Err(MalformedUrl(Str(u)))
  {
    assert Trim(u) == u by { TrimFixesTrimmed(u); }
  }

  /** Under PHP's validator, `wss://github.com` is refused: its scheme is not http(s). */
  lemma FilterUriRejectsWebSocket(urls: UrlFilter)
    requires AgreesWithPhp(urls)
    ensures FilterUri(Str("wss://github.com"), urls).Err?
  {
    var wss := "wss://github.com";
    assert FilterString(Str(wss), "name") == Ok(wss) by { TrimFixesTrimmed(wss); }
    assert !IsAcceptedUrl(urls, wss) by {
      if urls.validates(wss) { assert Lower(urls.scheme(wss)) == "wss"; }
    }
  }

  /** Under PHP's validator, `https://example.com/photo.png` comes back unchanged. */
  lemma FilterUriAcceptsTestUrl(urls: UrlFilter)
    requires AgreesWithPhp(urls)
    ensures FilterUri(Str("https://example.com/photo.png"), urls) == Ok("https://example.com/photo.png")
  {
    var photo := "https://example.com/photo.png";
    assert IsAcceptedUrl(urls, photo) by { assert Lower(urls.scheme(photo)) == "https"; }
    FilterUriFixesAccepted(photo, urls);
  }

  /** `filter_array_value`: keep non-empty strings and non-empty arrays. */
  predicate FilterArrayValue(v: Value)
  {
    (v.Str? && v.s != "") || (v.Arr? && v.entries != [])
  }

  /** What `filter_array_value` drops: null, booleans, numbers, objects,
      `''` and `[]`; and unlike PHP truthiness it keeps the string "0". */
  lemma FilterArrayValueCases(v: Value)
    ensures v.Null? || v.Bool? || v.Int? || v.Float? || v.Obj? ==> !FilterArrayValue(v)
    ensures v == Str("") || v == Arr([]) ==> !FilterArrayValue(v)
    ensures FilterArrayValue(v) ==> v.Str? || v.Arr?
    ensures FilterArrayValue(Str("0")) && !ToBool(Str("0"))
  {
  }

  /** `array_filter($array, 'filter_array_value')`: the entries whose value
      passes, keys kept. */
  function FilterArray(es: seq<Entry>): (r: seq<Entry>)
    ensures |r| <= |es|
    ensures forall i :: 0 <= i < |r| ==> FilterArrayValue(r[i].val)
  {
    if es == [] then []
    else (if FilterArrayValue(es[0].val) then [es[0]] else []) + FilterArray(es[1..])
  }

  /** An entry survives the filter exactly when it was there and its value passes. */
  lemma {:induction false} FilterArrayMembers(es: seq<Entry>, e: Entry)
    ensures e in FilterArray(es) <==> e in es && FilterArrayValue(e.val)
    decreases |es|
  {
    if es != [] {
      FilterArrayMembers(es[1..], e);
      assert es == [es[0]] + es[1..];
    }
  }

  /** Filtering distributes over concatenation, so together with the
      one-entry case it keeps the order of the entries it keeps. */
  lemma {:induction false} FilterArrayAppend(a: seq<Entry>, b: seq<Entry>)
    ensures FilterArray(a + b) == FilterArray(a) + FilterArray(b)
    decreases |a|
  {
    if a == [] {
      assert a + b == b;
    } else {
      assert (a + b)[0] == a[0] && (a + b)[1..] == a[1..] + b;
      FilterArrayAppend(a[1..], b);
    }
  }

  /** A single entry is kept exactly when its value passes. */
  lemma FilterArraySingle(e: Entry)
    ensures FilterArray([e]) == if FilterArrayValue(e.val) then [e] else []
  {
    assert [e][1..] == [];
  }

  /** An array none of whose values passes filters to nothing. */
  lemma {:induction false} FilterArrayDropsAll(es: seq<Entry>)
    requires forall i :: 0 <= i < |es| ==> !FilterArrayValue(es[i].val)
    ensures FilterArray(es) == []
    decreases |es|
  {
    if es != [] {
      FilterArrayDropsAll(es[1..]);
    }
  }
}
