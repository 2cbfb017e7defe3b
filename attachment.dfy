/** `Attachment`: a mutable fluent builder for one rich-card block of a
    message. Every setter filters its argument, assigns one property and
    returns the same object; `toArray` lists the twelve properties in
    declaration order and `jsonSerialize` drops the empty ones.

    The pure part of this module gives each setter call a meaning on a
    snapshot of the properties (`Perform`, `Run`); the class below does the
    same thing in place and is proved to agree with it. */
module Attachments {
  import opened Php
  import opened Functions

  /** One row of the `fields` table: `['title' => …, 'value' => …, 'short' => …]`. */
  datatype FieldRow = FieldRow(title: string, value: string, short: bool)

  /** The twelve properties of an `Attachment`, in declaration order. `null`
      is `None`; `text` is stored unfiltered, so it may hold any value. */
  datatype AttachmentData = AttachmentData(
    fallback: Option<string>,
    color: Option<string>,
    pretext: Option<string>,
    text: Value,
    authorName: Option<string>,
    authorLink: Option<string>,
    authorIcon: Option<string>,
    title: Option<string>,
    titleLink: Option<string>,
    fields: seq<FieldRow>,
    imageUrl: Option<string>,
    thumbUrl: Option<string>)

  /** A fresh `Attachment`: every property `null` except `fields`, which is `[]`. */
  const Blank := AttachmentData(None, None, None, Null, None, None, None, None, None, [], None, None)

  /** The keys `toArray` produces, in declaration order. */
  const Keys: seq<string> := ["fallback", "color", "pretext", "text", "author_name", "author_link",
                              "author_icon", "title", "title_link", "fields", "image_url", "thumb_url"]

  /** The colours of `success()`, `error()` and `info()`. */
  const Green := "#22BC66"
  const Red := "#DC4D2F"
  const Blue := "#3869D4"

  function OptValue(o: Option<string>): Value
  {
    match o
    case None => Null
    case Some(s) => Str(s)
  }

  function RowValue(row: FieldRow): Value
  {
    Arr([Entry(Name("title"), Str(row.title)), Entry(Name("value"), Str(row.value)), Entry(Name("short"), Bool(row.short))])
  }

  function RowsValue(rows: seq<FieldRow>): Value
  {
    Arr(seq(|rows|, i requires 0 <= i < |rows| => Entry(Index(i), RowValue(rows[i]))))
  }

  /** The value of the property at position `k` of `Keys`. */
  function Property(d: AttachmentData, k: int): Value
  {
    if k == 0 then OptValue(d.fallback)
    else if k == 1 then OptValue(d.color)
    else if k == 2 then OptValue(d.pretext)
    else if k == 3 then d.text
    else if k == 4 then OptValue(d.authorName)
    else if k == 5 then OptValue(d.authorLink)
    else if k == 6 then OptValue(d.authorIcon)
    else if k == 7 then OptValue(d.title)
    else if k == 8 then OptValue(d.titleLink)
    else if k == 9 then RowsValue(d.fields)
    else if k == 10 then OptValue(d.imageUrl)
    else OptValue(d.thumbUrl)
  }

  /** `toArray()`: every property, `null` ones included, under its own name
      and in declaration order. */
  function AttachmentArray(d: AttachmentData): (r: seq<Entry>)
    ensures |r| == |Keys|
    ensures forall i :: 0 <= i < |Keys| ==> r[i] == Entry(Name(Keys[i]), Property(d, i))
  {
    seq(|Keys|, i requires 0 <= i < |Keys| => Entry(Name(Keys[i]), Property(d, i)))
  }

  /** `jsonSerialize()`: the entries of `toArray()` that `filter_array_value` keeps. */
  function AttachmentJson(d: AttachmentData): seq<Entry>
  {
    FilterArray(AttachmentArray(d))
  }

  /** A fresh attachment lists all twelve keys, every value null except
      `fields`, an empty array, and so serializes to nothing. */
  lemma BlankSerializesToNothing()
    ensures forall i :: 0 <= i < |Keys| ==> AttachmentArray(Blank)[i].val == if i == 9 then Arr([]) else Null
    ensures AttachmentJson(Blank) == []
  {
    assert RowsValue([]) == Arr([]);
    FilterArrayDropsAll(AttachmentArray(Blank));
  }

  /** An attachment with only a non-empty fallback serializes to exactly that. */
  lemma FallbackOnlySerialization(s: string)
    requires s != ""
    ensures AttachmentJson(Blank.(fallback := Some(s))) == [Entry(Name("fallback"), Str(s))]
  {
    var a := AttachmentArray(Blank.(fallback := Some(s)));
    assert a == [a[0]] + a[1..];
    FilterArrayAppend([a[0]], a[1..]);
    FilterArrayDropsAll(a[1..]);
  }

  /** A non-empty field table is always serialized, rows with `short` false included. */
  lemma FieldsAreSerialized(d: AttachmentData)
    requires d.fields != []
    ensures Entry(Name("fields"), RowsValue(d.fields)) in AttachmentJson(d)
  {
    assert AttachmentArray(d)[9] == Entry(Name("fields"), RowsValue(d.fields));
    FilterArrayMembers(AttachmentArray(d), Entry(Name("fields"), RowsValue(d.fields)));
  }

  // ---------------------------------------------------------------------
  // field rows

  /** The row `field($title, $value, $short)` appends: title and value go
      through `filter_string` in that order, `short` through `(bool)`. */
  function MakeRow(title: Value, value: Value, short: Value): (r: Result<FieldRow>)
    ensures r.Ok? <==> Stringify(title).Some? && Stringify(value).Some?
    ensures r.Ok? ==> IsTrimmed(r.value.title) && IsTrimmed(r.value.value) && r.value.short == ToBool(short)
    ensures Stringify(title).None? ==> r == Err(NotStringable("field title", TypeName(title)))
    ensures Stringify(title).Some? && Stringify(value).None? ==> r == Err(NotStringable("field value", TypeName(value)))
  {
    match FilterString(title, "field title")
    case Err(e) => Err(e)
    case Ok(t) =>
      match FilterString(value, "field value")
      case Err(e) => Err(e)
      case Ok(v) => Ok(FieldRow(t, v, ToBool(short)))
  }

  /** `$this->field(...$args)`: fewer than two values is an argument-count
      error; a missing third value means `short` = true. */
  function SpreadRow(args: seq<Value>): Result<FieldRow>
  {
    if |args| < 2 then Err(TooFewArguments(|args|))
    else MakeRow(args[0], args[1], if |args| >= 3 then args[2] else Bool(true))
  }

  /** The rows built so far by `fields()`, and what stopped it, if anything. */
  datatype Collected = Collected(rows: seq<FieldRow>, raised: Option<Exception>)

  /** `fields($list)`: one row per element in order, stopping at the first
      element `field` rejects; the rows before it stay. */
  function CollectRows(list: seq<seq<Value>>): (c: Collected)
    ensures |c.rows| <= |list|
    ensures c.raised.None? <==> |c.rows| == |list|
    ensures forall i :: 0 <= i < |c.rows| ==> SpreadRow(list[i]) == Ok(c.rows[i])
    ensures c.raised.Some? ==> SpreadRow(list[|c.rows|]) == Err(c.raised.value)
    decreases |list|
  {
    if list == [] then Collected([], None)
    else
      var c := CollectRows(list[..|list| - 1]);
      if c.raised.Some? then c
      else match SpreadRow(list[|list| - 1])
        case Ok(row) => Collected(c.rows + [row], None)
        case Err(e) => Collected(c.rows, Some(e))
  }

  /** Once `fields()` has raised, the remaining elements are never looked at. */
  lemma {:induction false} CollectRowsStops(list: seq<seq<Value>>, k: nat)
    requires k <= |list| && CollectRows(list[..k]).raised.Some?
    ensures CollectRows(list) == CollectRows(list[..k])
    decreases |list| - k
  {
    if k < |list| {
      assert list[..k + 1][..k] == list[..k];
      CollectRowsStops(list, k + 1);
    } else {
      assert list[..k] == list;
    }
  }

  // ---------------------------------------------------------------------
  // setter calls as steps on the snapshot

  /** A call of one public setter, with its arguments. */
  datatype Call =
    | SetFallback(v: Value)
    | SetColor(v: Value)
    | SetSuccess
    | SetError
    | SetInfo
    | SetPretext(v: Value)
    | SetText(v: Value)
    | SetAuthorName(v: Value)
    | SetAuthorLink(v: Value)
    | SetAuthorIcon(v: Value)
    | SetTitle(title: Value, link: Value)
    | SetFields(list: seq<seq<Value>>)
    | AddField(fieldTitle: Value, fieldValue: Value, short: Value)
    | SetImageUrl(v: Value)
    | SetThumbUrl(v: Value)

  /** The properties after a call, and the exception it raised, if any. */
  datatype Step = Step(state: AttachmentData, raised: Option<Exception>)

  /** `color($color)`, which `success()`, `error()` and `info()` call with a fixed colour. */
  function ColorStep(d: AttachmentData, v: Value): Step
  {
    match FilterString(v, "color")
    case Ok(s) => Step(d.(color := Some(s)), None)
    case Err(e) => Step(d, Some(e))
  }

  /** What one setter call does to the properties. */
  function Perform(d: AttachmentData, c: Call, urls: UrlFilter): Step
  {
    match c
    case SetFallback(v) =>
      (match FilterString(v, "fallback")
       case Ok(s) => Step(d.(fallback := Some(s)), None)
       case Err(e) => Step(d, Some(e)))
    case SetColor(v) => ColorStep(d, v)
    case SetSuccess => ColorStep(d, Str(Green))
    case SetError => ColorStep(d, Str(Red))
    case SetInfo => ColorStep(d, Str(Blue))
    case SetPretext(v) =>
      (match FilterString(v, "pretext")
       case Ok(s) => Step(d.(pretext := Some(s)), None)
       case Err(e) => Step(d, Some(e)))
    case SetText(v) => Step(d.(text := v), None)
    case SetAuthorName(v) =>
      (match FilterString(v, "author_name")
       case Ok(s) => Step(d.(authorName := Some(s)), None)
       case Err(e) => Step(d, Some(e)))
    case SetAuthorLink(v) =>
      (match FilterUri(v, urls)
       case Ok(s) => Step(d.(authorLink := Some(s)), None)
       case Err(e) => Step(d, Some(e)))
    case SetAuthorIcon(v) =>
      (match FilterString(v, "author_icon")
       case Ok(s) => Step(d.(authorIcon := Some(s)), None)
       case Err(e) => Step(d, Some(e)))
    case SetTitle(t, link) =>
      (match FilterString(t, "title")
       case Err(e) => Step(d, Some(e))
       case Ok(s) =>
         if s == "" || link == Null then Step(d.(title := Some(s), titleLink := None), None)
         else
           match FilterUri(link, urls)
           case Ok(u) => Step(d.(title := Some(s), titleLink := Some(u)), None)
           case Err(e) => Step(d.(title := Some(s)), Some(e)))
    case SetFields(list) =>
      var c := CollectRows(list);
      Step(d.(fields := c.rows), c.raised)
    case AddField(t, v, short) =>
      (match MakeRow(t, v, short)
       case Ok(row) => Step(d.(fields := d.fields + [row]), None)
       case Err(e) => Step(d, Some(e)))
    case SetImageUrl(v) =>
      (match FilterUri(v, urls)
       case Ok(s) => Step(d.(imageUrl := Some(s)), None)
       case Err(e) => Step(d, Some(e)))
    case SetThumbUrl(v) =>
      (match FilterUri(v, urls)
       case Ok(s) => Step(d.(thumbUrl := Some(s)), None)
       case Err(e) => Step(d, Some(e)))
  }

  /** A sequence of setter calls, run in order until one raises. */
  function Run(d: AttachmentData, calls: seq<Call>, urls: UrlFilter): Step
    decreases |calls|
  {
    if calls == [] then Step(d, None)
    else
      var s := Run(d, calls[..|calls| - 1], urls);
      if s.raised.Some? then s else Perform(s.state, calls[|calls| - 1], urls)
  }

  /** Once a call has raised, the later calls are never made. */
  lemma {:induction false} RunStops(d: AttachmentData, calls: seq<Call>, k: nat, urls: UrlFilter)
    requires k <= |calls| && Run(d, calls[..k], urls).raised.Some?
    ensures Run(d, calls, urls) == Run(d, calls[..k], urls)
    decreases |calls| - k
  {
    if k < |calls| {
      assert calls[..k + 1][..k] == calls[..k];
      RunStops(d, calls, k + 1, urls);
    } else {
      assert calls[..k] == calls;
    }
  }

  /** The positions in `toArray()` (see `Keys`) that a call may change. */
  function Touches(c: Call): set<int>
  {
    match c
    case SetFallback(_) => {0}
    case SetColor(_) => {1}
    case SetSuccess => {1}
    case SetError => {1}
    case SetInfo => {1}
    case SetPretext(_) => {2}
    case SetText(_) => {3}
    case SetAuthorName(_) => {4}
    case SetAuthorLink(_) => {5}
    case SetAuthorIcon(_) => {6}
    case SetTitle(_, _) => {7, 8}
    case SetFields(_) => {9}
    case AddField(_, _, _) => {9}
    case SetImageUrl(_) => {10}
    case SetThumbUrl(_) => {11}
  }

  /** Every setter changes its own property (both `title` and `title_link`
      for `title()`) and nothing else. */
  lemma PerformTouchesOnlyItsOwn(d: AttachmentData, c: Call, urls: UrlFilter)
    ensures var after := Perform(d, c, urls).state;
      forall k :: 0 <= k < |Keys| && k !in Touches(c) ==> Property(after, k) == Property(d, k)
  {
    if c.SetTitle? || c.SetFields? || c.AddField? {
      TouchesOnlyRest(d, c, urls);
    } else if c.SetAuthorLink? || c.SetImageUrl? || c.SetThumbUrl? {
      TouchesOnlyUrls(d, c, urls);
    } else {
      TouchesOnlyStrings(d, c, urls);
    }
  }

  lemma TouchesOnlyStrings(d: AttachmentData, c: Call, urls: UrlFilter)
    requires !c.SetTitle? && !c.SetFields? && !c.AddField? && !c.SetAuthorLink? && !c.SetImageUrl? && !c.SetThumbUrl?
    ensures var after := Perform(d, c, urls).state;
      forall k :: 0 <= k < |Keys| && k !in Touches(c) ==> Property(after, k) == Property(d, k)
  {
  }

  lemma TouchesOnlyUrls(d: AttachmentData, c: Call, urls: UrlFilter)
    requires c.SetAuthorLink? || c.SetImageUrl? || c.SetThumbUrl?
    ensures var after := Perform(d, c, urls).state;
      forall k :: 0 <= k < |Keys| && k !in Touches(c) ==> Property(after, k) == Property(d, k)
  {
  }

  lemma TouchesOnlyRest(d: AttachmentData, c: Call, urls: UrlFilter)
    requires c.SetTitle? || c.SetFields? || c.AddField?
    ensures var after := Perform(d, c, urls).state;
      forall k :: 0 <= k < |Keys| && k !in Touches(c) ==> Property(after, k) == Property(d, k)
  {
  }

  /** A setter that raises leaves the attachment as it was, except for
      `title()` (see `TitleStoredBeforeLinkFails`) and `fields()` (see
      `CollectRows`), which have already changed something. */
  lemma FailedCallChangesNothing(d: AttachmentData, c: Call, urls: UrlFilter)
    requires !c.SetTitle? && !c.SetFields?
    requires Perform(d, c, urls).raised.Some?
    ensures Perform(d, c, urls).state == d
  {
  }

  /** The filtering setters store exactly what their filter returns, and
      raise what it raises. */
  lemma StringSettersStoreFiltered(d: AttachmentData, v: Value, urls: UrlFilter)
    ensures var r := FilterString(v, "fallback"); var p := Perform(d, SetFallback(v), urls);
      (r.Ok? ==> p == Step(d.(fallback := Some(r.value)), None)) && (r.Err? ==> p == Step(d, Some(r.error)))
    ensures var r := FilterString(v, "color"); var p := Perform(d, SetColor(v), urls);
      (r.Ok? ==> p == Step(d.(color := Some(r.value)), None)) && (r.Err? ==> p == Step(d, Some(r.error)))
    ensures var r := FilterString(v, "pretext"); var p := Perform(d, SetPretext(v), urls);
      (r.Ok? ==> p == Step(d.(pretext := Some(r.value)), None)) && (r.Err? ==> p == Step(d, Some(r.error)))
    ensures var r := FilterString(v, "author_name"); var p := Perform(d, SetAuthorName(v), urls);
      (r.Ok? ==> p == Step(d.(authorName := Some(r.value)), None)) && (r.Err? ==> p == Step(d, Some(r.error)))
    ensures var r := FilterString(v, "author_icon"); var p := Perform(d, SetAuthorIcon(v), urls);
      (r.Ok? ==> p == Step(d.(authorIcon := Some(r.value)), None)) && (r.Err? ==> p == Step(d, Some(r.error)))
  {
  }

  /** `success()`, `error()` and `info()` set `color` to their fixed colour
      and never raise. */
  lemma PresetColors(d: AttachmentData, urls: UrlFilter)
    ensures Perform(d, SetSuccess, urls) == Step(d.(color := Some("#22BC66")), None)
    ensures Perform(d, SetError, urls) == Step(d.(color := Some("#DC4D2F")), None)
    ensures Perform(d, SetInfo, urls) == Step(d.(color := Some("#3869D4")), None)
  {
    TrimFixesTrimmed(Green);
    TrimFixesTrimmed(Red);
    TrimFixesTrimmed(Blue);
  }

  /** `text()` stores its argument as given, whatever it is, and never raises. */
  lemma TextStoredVerbatim(d: AttachmentData, v: Value, urls: UrlFilter)
    ensures Perform(d, SetText(v), urls) == Step(d.(text := v), None)
  {
  }

  /** `field()` appends exactly one row and keeps the earlier ones; if a
      filter raises, no row is appended. */
  lemma FieldAppendsOneRow(d: AttachmentData, t: Value, v: Value, short: Value, urls: UrlFilter)
    ensures var p := Perform(d, AddField(t, v, short), urls);
      && (p.raised.None? <==> Stringify(t).Some? && Stringify(v).Some?)
      && (p.raised.None? ==> p.state.fields == d.fields + [FieldRow(Trim(Stringify(t).value), Trim(Stringify(v).value), ToBool(short))])
      && (p.raised.Some? ==> p.state.fields == d.fields)
  {
  }

  /** A URL setter stores only what `filter_uri` accepts; a rejected URL
      raises and leaves the property as it was. */
  lemma UrlSetterStoresAccepted(d: AttachmentData, v: Value, urls: UrlFilter)
    ensures var p := Perform(d, SetThumbUrl(v), urls);
      && (p.raised.None? <==> FilterUri(v, urls).Ok?)
      && (p.raised.None? ==> p.state.thumbUrl.Some? && IsAcceptedUrl(urls, p.state.thumbUrl.value))
      && (p.raised.Some? ==> p.state.thumbUrl == d.thumbUrl)
  {
  }

  /** `title(t)` with no link, or with a title that trims to '', resets
      `title_link` to null. */
  lemma TitleWithoutLinkResetsLink(d: AttachmentData, t: Value, link: Value, urls: UrlFilter)
    requires FilterString(t, "title").Ok?
    requires link == Null || FilterString(t, "title").value == ""
    ensures Perform(d, SetTitle(t, link), urls) == Step(d.(title := Some(Trim(Stringify(t).value)), titleLink := None), None)
  {
  }

  /** `title(t, link)` with a non-empty title and an accepted link stores both. */
  lemma TitleWithLinkStoresBoth(d: AttachmentData, t: Value, link: Value, urls: UrlFilter)
    requires FilterString(t, "title").Ok? && FilterString(t, "title").value != ""
    requires link != Null && FilterUri(link, urls).Ok?
    ensures Perform(d, SetTitle(t, link), urls)
      == Step(d.(title := Some(FilterString(t, "title").value), titleLink := Some(FilterUri(link, urls).value)), None)
  {
  }

  /** One more call after a chain of calls: it is made unless the chain raised. */
  lemma {:induction false} RunAppend(d: AttachmentData, calls: seq<Call>, c: Call, urls: UrlFilter)
    ensures var s := Run(d, calls, urls);
      Run(d, calls + [c], urls) == if s.raised.Some? then s else Perform(s.state, c, urls)
  {
    assert (calls + [c])[..|calls|] == calls;
  }

  /** A chain of calls split in two: the second part starts from where the
      first part left the properties, unless the first part raised. */
  lemma {:induction false} RunConcat(d: AttachmentData, a: seq<Call>, b: seq<Call>, urls: UrlFilter)
    ensures var s := Run(d, a, urls);
      Run(d, a + b, urls) == if s.raised.Some? then s else Run(s.state, b, urls)
    decreases |b|
  {
    if b == [] {
      assert a + b == a;
    } else {
      var front, c := b[..|b| - 1], b[|b| - 1];
      assert b == front + [c];
      assert a + b == (a + front) + [c];
      RunAppend(d, a + front, c, urls);
      RunConcat(d, a, front, urls);
      var s := Run(d, a, urls);
      if s.raised.None? {
        RunAppend(s.state, front, c, urls);
      }
    }
  }

  /** `title(t, link)` with a trimmed non-empty string and an accepted URL. */
  lemma TitleStep(d: AttachmentData, t: string, link: string, urls: UrlFilter)
    requires IsTrimmed(t) && t != "" && FilterUri(Str(link), urls) == Ok(link)
    ensures Perform(d, SetTitle(Str(t), Str(link)), urls) == Step(d.(title := Some(t), titleLink := Some(link)), None)
  {
    TrimFixesTrimmed(t);
  }

  /** `title(t)` with a trimmed string and no link. */
  lemma TitleOnlyStep(d: AttachmentData, t: string, urls: UrlFilter)
    requires IsTrimmed(t)
    ensures Perform(d, SetTitle(Str(t), Null), urls) == Step(d.(title := Some(t), titleLink := None), None)
  {
    TrimFixesTrimmed(t);
  }

  /** The builder is mutable and last-write-wins: after `info()`, a thumbnail
      and a linked title, calling `title()` again replaces the title, drops
      the link and keeps the thumbnail. */
  lemma OverwritingTitleKeepsThumbnail(thumb: string, t1: string, link: string, t2: string, urls: UrlFilter)
    requires FilterUri(Str(thumb), urls) == Ok(thumb) && FilterUri(Str(link), urls) == Ok(link)
    requires IsTrimmed(t1) && t1 != "" && IsTrimmed(t2)
    ensures var first := Run(Blank, [SetInfo, SetThumbUrl(Str(thumb)), SetTitle(Str(t1), Str(link))], urls);
      var second := Run(Blank, [SetInfo, SetThumbUrl(Str(thumb)), SetTitle(Str(t1), Str(link)), SetTitle(Str(t2), Null)], urls);
      && first.raised.None? && first.state.title == Some(t1) && first.state.titleLink == Some(link)
      && first.state.thumbUrl == Some(thumb)
      && second.raised.None? && second.state.title == Some(t2) && second.state.titleLink == None
      && second.state.thumbUrl == Some(thumb) && second.state.color == Some(Blue)
  {
    var c0, c1, c2, c3 := SetInfo, SetThumbUrl(Str(thumb)), SetTitle(Str(t1), Str(link)), SetTitle(Str(t2), Null);
    var d1 := Blank.(color := Some(Blue));
    var d2 := d1.(thumbUrl := Some(thumb));
    var d3 := d2.(title := Some(t1), titleLink := Some(link));
    var d4 := d3.(title := Some(t2), titleLink := None);
    assert Perform(Blank, c0, urls) == Step(d1, None) by { PresetColors(Blank, urls); }
    assert Perform(d2, c2, urls) == Step(d3, None) by { TitleStep(d2, t1, link, urls); }
    assert Perform(d3, c3, urls) == Step(d4, None) by { TitleOnlyStep(d3, t2, urls); }
    RunAppend(Blank, [], c0, urls);
    RunAppend(Blank, [c0], c1, urls);
    RunAppend(Blank, [c0, c1], c2, urls);
    RunAppend(Blank, [c0, c1, c2], c3, urls);
    assert [] + [c0] == [c0] && [c0] + [c1] == [c0, c1] && [c0, c1] + [c2] == [c0, c1, c2];
    assert [c0, c1, c2] + [c3] == [c0, c1, c2, c3];
  }

  // ---------------------------------------------------------------------
  // what the properties can hold

  predicate TrimmedOrNull(o: Option<string>)
  {
    o.None? || IsTrimmed(o.value)
  }

  predicate UrlOrNull(urls: UrlFilter, o: Option<string>)
  {
    o.None? || IsAcceptedUrl(urls, o.value)
  }

  /** What the setters guarantee about stored values: the string properties
      hold trimmed strings, the link and image properties hold URLs
      `filter_uri` accepts, and each row's title and value are trimmed.
      `text` is stored unfiltered and `author_icon` is only trimmed, so
      neither is constrained further. */
  predicate Sound(d: AttachmentData, urls: UrlFilter)
  {
    && TrimmedOrNull(d.fallback)
    && TrimmedOrNull(d.color)
    && TrimmedOrNull(d.pretext)
    && TrimmedOrNull(d.authorName)
    && UrlOrNull(urls, d.authorLink)
    && TrimmedOrNull(d.authorIcon)
    && TrimmedOrNull(d.title)
    && UrlOrNull(urls, d.titleLink)
    && (forall i :: 0 <= i < |d.fields| ==> IsTrimmed(d.fields[i].title) && IsTrimmed(d.fields[i].value))
    && UrlOrNull(urls, d.imageUrl)
    && UrlOrNull(urls, d.thumbUrl)
  }

  /** Every rows list `fields()` builds holds trimmed titles and values. */
  lemma CollectedRowsTrimmed(list: seq<seq<Value>>)
    ensures var rows := CollectRows(list).rows;
      forall i :: 0 <= i < |rows| ==> IsTrimmed(rows[i].title) && IsTrimmed(rows[i].value)
  {
    var rows := CollectRows(list).rows;
    forall i | 0 <= i < |rows| ensures IsTrimmed(rows[i].title) && IsTrimmed(rows[i].value) {
      assert SpreadRow(list[i]) == Ok(rows[i]);
    }
  }

  /** No setter call, successful or not, breaks `Sound`. */
  lemma PerformKeepsSound(d: AttachmentData, c: Call, urls: UrlFilter)
    requires Sound(d, urls)
    ensures Sound(Perform(d, c, urls).state, urls)
  {
    if c.SetTitle? {
      TitleKeepsSound(d, c, urls);
    } else if c.SetFields? || c.AddField? {
      FieldSettersKeepSound(d, c, urls);
    } else if c.SetAuthorLink? || c.SetImageUrl? || c.SetThumbUrl? {
      UrlSettersKeepSound(d, c, urls);
    } else {
      StringSettersKeepSound(d, c, urls);
    }
  }

  lemma StringSettersKeepSound(d: AttachmentData, c: Call, urls: UrlFilter)
    requires Sound(d, urls)
    requires !c.SetTitle? && !c.SetFields? && !c.AddField? && !c.SetAuthorLink? && !c.SetImageUrl? && !c.SetThumbUrl?
    ensures Sound(Perform(d, c, urls).state, urls)
  {
  }

  lemma UrlSettersKeepSound(d: AttachmentData, c: Call, urls: UrlFilter)
    requires Sound(d, urls)
    requires c.SetAuthorLink? || c.SetImageUrl? || c.SetThumbUrl?
    ensures Sound(Perform(d, c, urls).state, urls)
  {
  }

  lemma TitleKeepsSound(d: AttachmentData, c: Call, urls: UrlFilter)
    requires Sound(d, urls) && c.SetTitle?
    ensures Sound(Perform(d, c, urls).state, urls)
  {
    var t := FilterString(c.title, "title");
    if t.Ok? && t.value != "" && c.link != Null {
      var u := FilterUri(c.link, urls);
      if u.Ok? {
        assert Perform(d, c, urls).state == d.(title := Some(t.value), titleLink := Some(u.value));
      } else {
        assert Perform(d, c, urls).state == d.(title := Some(t.value));
      }
    }
  }

  lemma FieldSettersKeepSound(d: AttachmentData, c: Call, urls: UrlFilter)
    requires Sound(d, urls) && (c.SetFields? || c.AddField?)
    ensures Sound(Perform(d, c, urls).state, urls)
  {
    if c.SetFields? {
      CollectedRowsTrimmed(c.list);
    } else {
      var rows := Perform(d, c, urls).state.fields;
      if MakeRow(c.fieldTitle, c.fieldValue, c.short).Ok? {
        assert rows == d.fields + [MakeRow(c.fieldTitle, c.fieldValue, c.short).value];
      }
    }
  }

  /** Any sequence of setter calls on a sound attachment leaves it sound. */
  lemma {:induction false} RunKeepsSound(d: AttachmentData, calls: seq<Call>, urls: UrlFilter)
    requires Sound(d, urls)
    ensures Sound(Run(d, calls, urls).state, urls)
    decreases |calls|
  {
    if calls != [] {
      RunKeepsSound(d, calls[..|calls| - 1], urls);
      var s := Run(d, calls[..|calls| - 1], urls);
      if s.raised.None? {
        PerformKeepsSound(s.state, calls[|calls| - 1], urls);
      }
    }
  }

  /** So every attachment a script of setter calls builds from a fresh one
      is sound: its links and images are all URLs `filter_uri` accepts. */
  lemma ConfiguredIsSound(calls: seq<Call>, urls: UrlFilter)
    ensures Sound(Run(Blank, calls, urls).state, urls)
  {
    RunKeepsSound(Blank, calls, urls);
  }

  /** `title()` is not atomic: with a non-empty title and an invalid link it
      raises after the title has been stored, and keeps the old link. */
  lemma TitleStoredBeforeLinkFails(d: AttachmentData, t: Value, link: Value, urls: UrlFilter)
    requires FilterString(t, "title").Ok? && FilterString(t, "title").value != ""
    requires link != Null && FilterUri(link, urls).Err?
    ensures Perform(d, SetTitle(t, link), urls)
      == Step(d.(title := Some(FilterString(t, "title").value)), Some(FilterUri(link, urls).error))
  {
  }

  // ---------------------------------------------------------------------
  // the object

  /** The builder itself. Each setter changes its property in place and
      returns `Ok(this)`, or returns the exception it raised. */
  class Attachment {
    var fallback: Option<string>
    var color: Option<string>
    var pretext: Option<string>
    var text: Value
    var authorName: Option<string>
    var authorLink: Option<string>
    var authorIcon: Option<string>
    var title: Option<string>
    var titleLink: Option<string>
    var fields: seq<FieldRow>
    var imageUrl: Option<string>
    var thumbUrl: Option<string>

    /** The properties as a value. */
    function State(): AttachmentData
      reads this
    {
      AttachmentData(fallback, color, pretext, text, authorName, authorLink, authorIcon,
                     title, titleLink, fields, imageUrl, thumbUrl)
    }

    /** What a setter returns: `$this`, or the exception it raised. */
    function Returns(raised: Option<Exception>): Result<Attachment>
    {
      match raised
      case None => Ok(this)
      case Some(e) => Err(e)
    }

    constructor()
      ensures State() == Blank
    {
      fallback, color, pretext, text := None, None, None, Null;
      authorName, authorLink, authorIcon := None, None, None;
      title, titleLink, fields, imageUrl, thumbUrl := None, None, [], None, None;
    }

    /** `toArray()`. */
    function ToArray(): seq<Entry>
      reads this
    {
      AttachmentArray(State())
    }

    /** `jsonSerialize()`. */
    function JsonSerialize(): seq<Entry>
      reads this
    {
      AttachmentJson(State())
    }

    method Fallback(v: Value) returns (r: Result<Attachment>)
      modifies this
      ensures match FilterString(v, "fallback")
        case Ok(s) => r == Ok(this) && State() == old(State()).(fallback := Some(s))
        case Err(e) => r == Err(e) && State() == old(State())
    {
      match FilterString(v, "fallback")
      case Ok(s) =>
        fallback := Some(s);
        r := Ok(this);
      case Err(e) =>
        r := Err(e);
    }

    method Color(v: Value) returns (r: Result<Attachment>)
      modifies this
      ensures match FilterString(v, "color")
        case Ok(s) => r == Ok(this) && State() == old(State()).(color := Some(s))
        case Err(e) => r == Err(e) && State() == old(State())
    {
      match FilterString(v, "color")
      case Ok(s) =>
        color := Some(s);
        r := Ok(this);
      case Err(e) =>
        r := Err(e);
    }

    method Success() returns (r: Result<Attachment>)
      modifies this
      ensures r == Ok(this) && State() == old(State()).(color := Some(Green))
    {
      TrimFixesTrimmed(Green);
      r := Color(Str(Green));
    }

    method Error() returns (r: Result<Attachment>)
      modifies this
      ensures r == Ok(this) && State() == old(State()).(color := Some(Red))
    {
      TrimFixesTrimmed(Red);
      r := Color(Str(Red));
    }

    method Info() returns (r: Result<Attachment>)
      modifies this
      ensures r == Ok(this) && State() == old(State()).(color := Some(Blue))
    {
      TrimFixesTrimmed(Blue);
      r := Color(Str(Blue));
    }

    method Pretext(v: Value) returns (r: Result<Attachment>)
      modifies this
      ensures match FilterString(v, "pretext")
        case Ok(s) => r == Ok(this) && State() == old(State()).(pretext := Some(s))
        case Err(e) => r == Err(e) && State() == old(State())
    {
      match FilterString(v, "pretext")
      case Ok(s) =>
        pretext := Some(s);
        r := Ok(this);
      case Err(e) =>
        r := Err(e);
    }

    method Text(v: Value) returns (r: Result<Attachment>)
      modifies this
      ensures r == Ok(this) && State() == old(State()).(text := v)
    {
      text := v;
      r := Ok(this);
    }

    method AuthorName(v: Value) returns (r: Result<Attachment>)
      modifies this
      ensures match FilterString(v, "author_name")
        case Ok(s) => r == Ok(this) && State() == old(State()).(authorName := Some(s))
        case Err(e) => r == Err(e) && State() == old(State())
    {
      match FilterString(v, "author_name")
      case Ok(s) =>
        authorName := Some(s);
        r := Ok(this);
      case Err(e) =>
        r := Err(e);
    }

    method AuthorLink(v: Value, urls: UrlFilter) returns (r: Result<Attachment>)
      modifies this
      ensures match FilterUri(v, urls)
        case Ok(u) => r == Ok(this) && State() == old(State()).(authorLink := Some(u))
        case Err(e) => r == Err(e) && State() == old(State())
    {
      match FilterUri(v, urls)
      case Ok(u) =>
        authorLink := Some(u);
        r := Ok(this);
      case Err(e) =>
        r := Err(e);
    }

    method AuthorIcon(v: Value) returns (r: Result<Attachment>)
      modifies this
      ensures match FilterString(v, "author_icon")
        case Ok(s) => r == Ok(this) && State() == old(State()).(authorIcon := Some(s))
        case Err(e) => r == Err(e) && State() == old(State())
    {
      match FilterString(v, "author_icon")
      case Ok(s) =>
        authorIcon := Some(s);
        r := Ok(this);
      case Err(e) =>
        r := Err(e);
    }

    /** `title($title, $title_link = null)`: the title is stored before the
        link is looked at. */
    method Title(t: Value, urls: UrlFilter, link: Value := Null) returns (r: Result<Attachment>)
      modifies this
      ensures Step(State(), if r.Err? then Some(r.error) else None) == Perform(old(State()), SetTitle(t, link), urls)
      ensures r.Ok? ==> r.value == this
    {
      match FilterString(t, "title")
      case Err(e) =>
        r := Err(e);
      case Ok(s) =>
        title := Some(s);
        if s == "" || link == Null {
          titleLink := None;
          r := Ok(this);
        } else {
          match FilterUri(link, urls)
          case Ok(u) =>
            titleLink := Some(u);
            r := Ok(this);
          case Err(e) =>
            r := Err(e);
        }
    }

    /** `field($title, $value, $short = true)`: appends one row, or raises
        before anything is appended. */
    method Field(t: Value, v: Value, short: Value := Bool(true)) returns (r: Result<Attachment>)
      modifies this
      ensures match MakeRow(t, v, short)
        case Ok(row) => r == Ok(this) && State() == old(State()).(fields := old(fields) + [row])
        case Err(e) => r == Err(e) && State() == old(State())
    {
      match MakeRow(t, v, short)
      case Ok(row) =>
        fields := fields + [row];
        r := Ok(this);
      case Err(e) =>
        r := Err(e);
    }

    /** `$this->field(...$args)`. */
    method SpreadField(args: seq<Value>) returns (r: Result<Attachment>)
      modifies this
      ensures match SpreadRow(args)
        case Ok(row) => r == Ok(this) && State() == old(State()).(fields := old(fields) + [row])
        case Err(e) => r == Err(e) && State() == old(State())
    {
      if |args| < 2 {
        r := Err(TooFewArguments(|args|));
      } else if |args| >= 3 {
        r := Field(args[0], args[1], args[2]);
      } else {
        r := Field(args[0], args[1]);
      }
    }

    /** `fields(array $fields = [])`: empties the table, then adds the rows
        one by one; an element that `field` rejects stops the loop with the
        earlier rows in place. */
    method Fields(list: seq<seq<Value>> := []) returns (r: Result<Attachment>)
      modifies this
      ensures State() == old(State()).(fields := CollectRows(list).rows)
      ensures r == Returns(CollectRows(list).raised)
    {
      fields := [];
      var i := 0;
      while i < |list|
        invariant 0 <= i <= |list|
        invariant CollectRows(list[..i]) == Collected(fields, None)
        invariant State() == old(State()).(fields := fields)
      {
        assert list[..i + 1][..i] == list[..i];
        var step := SpreadField(list[i]);
        if step.Err? {
          assert CollectRows(list[..i + 1]) == Collected(fields, Some(step.error));
          CollectRowsStops(list, i + 1);
          return step;
        }
        i := i + 1;
      }
      assert list[..i] == list;
      r := Ok(this);
    }

    method ImageUrl(v: Value, urls: UrlFilter) returns (r: Result<Attachment>)
      modifies this
      ensures match FilterUri(v, urls)
        case Ok(u) => r == Ok(this) && State() == old(State()).(imageUrl := Some(u))
        case Err(e) => r == Err(e) && State() == old(State())
    {
      match FilterUri(v, urls)
      case Ok(u) =>
        imageUrl := Some(u);
        r := Ok(this);
      case Err(e) =>
        r := Err(e);
    }

    method ThumbUrl(v: Value, urls: UrlFilter) returns (r: Result<Attachment>)
      modifies this
      ensures match FilterUri(v, urls)
        case Ok(u) => r == Ok(this) && State() == old(State()).(thumbUrl := Some(u))
        case Err(e) => r == Err(e) && State() == old(State())
    {
      match FilterUri(v, urls)
      case Ok(u) =>
        thumbUrl := Some(u);
        r := Ok(this);
      case Err(e) =>
        r := Err(e);
    }

    /** Makes one setter call; it does what `Perform` says. */
    method Invoke(c: Call, urls: UrlFilter) returns (r: Result<Attachment>)
      modifies this
      ensures Step(State(), if r.Err? then Some(r.error) else None) == Perform(old(State()), c, urls)
      ensures r.Ok? ==> r.value == this
    {
      if c.SetTitle? {
        r := Title(c.title, urls, c.link);
      } else if c.SetFields? {
        r := Fields(c.list);
      } else if c.AddField? {
        r := Field(c.fieldTitle, c.fieldValue, c.short);
      } else if c.SetAuthorLink? || c.SetImageUrl? || c.SetThumbUrl? {
        r := InvokeUrlSetter(c, urls);
      } else if c.SetSuccess? || c.SetError? || c.SetInfo? {
        r := InvokePreset(c, urls);
      } else {
        r := InvokeStringSetter(c, urls);
      }
    }

    method InvokeUrlSetter(c: Call, urls: UrlFilter) returns (r: Result<Attachment>)
      requires c.SetAuthorLink? || c.SetImageUrl? || c.SetThumbUrl?
      modifies this
      ensures Step(State(), if r.Err? then Some(r.error) else None) == Perform(old(State()), c, urls)
      ensures r.Ok? ==> r.value == this
    {
      match c
      case SetAuthorLink(v) => r := AuthorLink(v, urls);
      case SetImageUrl(v) => r := ImageUrl(v, urls);
      case SetThumbUrl(v) => r := ThumbUrl(v, urls);
    }

    method InvokePreset(c: Call, urls: UrlFilter) returns (r: Result<Attachment>)
      requires c.SetSuccess? || c.SetError? || c.SetInfo?
      modifies this
      ensures Step(State(), if r.Err? then Some(r.error) else None) == Perform(old(State()), c, urls)
      ensures r.Ok? ==> r.value == this
    {
      PresetColors(State(), urls);
      match c
      case SetSuccess => r := Success();
      case SetError => r := Error();
      case SetInfo => r := Info();
    }

    method InvokeStringSetter(c: Call, urls: UrlFilter) returns (r: Result<Attachment>)
      requires c.SetFallback? || c.SetColor? || c.SetPretext? || c.SetText? || c.SetAuthorName? || c.SetAuthorIcon?
      modifies this
      ensures Step(State(), if r.Err? then Some(r.error) else None) == Perform(old(State()), c, urls)
      ensures r.Ok? ==> r.value == this
    {
      match c
      case SetFallback(v) => r := Fallback(v);
      case SetColor(v) => r := Color(v);
      case SetPretext(v) => r := Pretext(v);
      case SetText(v) => r := Text(v);
      case SetAuthorName(v) => r := AuthorName(v);
      case SetAuthorIcon(v) => r := AuthorIcon(v);
    }

    /** Makes the calls in order, stopping at the first one that raises; it
        does what `Run` says. */
    method Apply(calls: seq<Call>, urls: UrlFilter) returns (r: Result<Attachment>)
      modifies this
      ensures Step(State(), if r.Err? then Some(r.error) else None) == Run(old(State()), calls, urls)
      ensures r.Ok? ==> r.value == this
    {
      var i := 0;
      while i < |calls|
        invariant 0 <= i <= |calls|
        invariant Run(old(State()), calls[..i], urls) == Step(State(), None)
      {
        assert calls[..i + 1][..i] == calls[..i];
        var step := Invoke(calls[i], urls);
        if step.Err? {
          RunStops(old(State()), calls, i + 1, urls);
          return step;
        }
        i := i + 1;
      }
      assert calls[..i] == calls;
      r := Ok(this);
    }
  }
}
