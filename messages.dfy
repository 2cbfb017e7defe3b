/** `Message`: the webhook payload. Four string properties, filtered on the
    way in, and a list of attachments that `attachment()` appends to and
    `attachments()` rebuilds. */
module Messages {
  import opened Php
  import opened Functions
  import Attachments

  /** The properties of a `Message`, in declaration order. */
  datatype MessageData = MessageData(
    text: string,
    username: string,
    channel: string,
    iconUrl: string,
    attachments: seq<Attachments.Attachment>)

  /** A fresh `Message`: four empty strings and no attachments. */
  const Empty := MessageData("", "", "", "", [])

  /** The value of `attachments` in `toArray()`: a list of the objects themselves. */
  function AttachmentsValue(items: seq<Attachments.Attachment>): (v: Value)
    ensures v.Arr? && |v.entries| == |items|
    ensures forall i :: 0 <= i < |items| ==> v.entries[i] == Entry(Index(i), Obj(items[i], None))
  {
    Arr(seq(|items|, i requires 0 <= i < |items| => Entry(Index(i), Obj(items[i], None))))
  }

  /** `toArray()`: the five properties under their own names, in declaration order. */
  function MessageArray(d: MessageData): seq<Entry>
  {
    [ Entry(Name("text"), Str(d.text)),
      Entry(Name("username"), Str(d.username)),
      Entry(Name("channel"), Str(d.channel)),
      Entry(Name("icon_url"), Str(d.iconUrl)),
      Entry(Name("attachments"), AttachmentsValue(d.attachments)) ]
  }

  /** `jsonSerialize()`: the entries of `toArray()` that `filter_array_value` keeps. */
  function MessageJson(d: MessageData): seq<Entry>
  {
    FilterArray(MessageArray(d))
  }

  /** `[e]` if `filter_array_value` keeps it, else nothing. */
  function KeptIf(keep: bool, e: Entry): seq<Entry>
  {
    if keep then [e] else []
  }

  /** `jsonSerialize()` keeps exactly the non-empty strings, and the
      attachment list when it is not empty, in declaration order. */
  lemma MessageJsonKeepsNonEmpty(d: MessageData)
    ensures MessageJson(d)
      == KeptIf(d.text != "", Entry(Name("text"), Str(d.text)))
       + (KeptIf(d.username != "", Entry(Name("username"), Str(d.username)))
       + (KeptIf(d.channel != "", Entry(Name("channel"), Str(d.channel)))
       + (KeptIf(d.iconUrl != "", Entry(Name("icon_url"), Str(d.iconUrl)))
       + KeptIf(d.attachments != [], Entry(Name("attachments"), AttachmentsValue(d.attachments))))))
  {
    var e0, e1, e2, e3, e4 := Entry(Name("text"), Str(d.text)), Entry(Name("username"), Str(d.username)),
                              Entry(Name("channel"), Str(d.channel)), Entry(Name("icon_url"), Str(d.iconUrl)),
                              Entry(Name("attachments"), AttachmentsValue(d.attachments));
    var r4 := [e4];
    var r3 := [e3] + r4;
    var r2 := [e2] + r3;
    var r1 := [e1] + r2;
    assert MessageArray(d) == [e0] + r1;
    assert FilterArray(r4) == KeptIf(d.attachments != [], e4) by { FilterArraySingle(e4); }
    assert FilterArray(r3) == KeptIf(d.iconUrl != "", e3) + FilterArray(r4) by {
      FilterArrayAppend([e3], r4);
      FilterArraySingle(e3);
    }
    assert FilterArray(r2) == KeptIf(d.channel != "", e2) + FilterArray(r3) by {
      FilterArrayAppend([e2], r3);
      FilterArraySingle(e2);
    }
    assert FilterArray(r1) == KeptIf(d.username != "", e1) + FilterArray(r2) by {
      FilterArrayAppend([e1], r2);
      FilterArraySingle(e1);
    }
    assert FilterArray([e0] + r1) == KeptIf(d.text != "", e0) + FilterArray(r1) by {
      FilterArrayAppend([e0], r1);
      FilterArraySingle(e0);
    }
  }

  /** A fresh message lists its five keys but serializes to nothing. */
  lemma EmptySerializesToNothing()
    ensures |MessageArray(Empty)| == 5
    ensures MessageJson(Empty) == []
  {
    MessageJsonKeepsNonEmpty(Empty);
  }

  /** What `attachment()` is given: an `Attachment`, a callable that will
      configure a fresh one (the setter calls it makes on it), or any other
      value (which may still be an `Attachment` object, as `Obj`). */
  datatype AttachmentArg =
    | Instance(item: Attachments.Attachment)
    | Callable(calls: seq<Attachments.Call>)
    | Other(v: Value)

  /** The exception `attachment(arg)` raises, if any: none for an instance
      of `Attachment`, the callable's own for a callable, and the library's
      for anything else. */
  function Rejection(arg: AttachmentArg, urls: UrlFilter): Option<Exception>
  {
    match arg
    case Instance(_) => None
    case Callable(calls) => Attachments.Run(Attachments.Blank, calls, urls).raised
    case Other(v) => if IsAttachmentObject(v) then None else Some(NotAnAttachment)
  }

  /** `$attachment instanceof Attachment` for a value given as `Other`. */
  predicate IsAttachmentObject(v: Value)
  {
    v.Obj? && v.ref is Attachments.Attachment
  }

  /** How many leading arguments `attachments()` gets through before one is rejected. */
  function Accepted(args: seq<AttachmentArg>, urls: UrlFilter): (k: nat)
    ensures k <= |args|
    ensures forall i :: 0 <= i < k ==> Rejection(args[i], urls).None?
    ensures k < |args| ==> Rejection(args[k], urls).Some?
  {
    if args == [] || Rejection(args[0], urls).Some? then 0
    else 1 + Accepted(args[1..], urls)
  }

  /** The attachment `attachment(arg)` appended for an accepted argument:
      the instance itself, or a fresh one the callable configured. */
  ghost predicate Made(arg: AttachmentArg, item: Attachments.Attachment, urls: UrlFilter)
    reads item
  {
    match arg
    case Instance(a) => item == a
    case Callable(calls) => item.State() == Attachments.Run(Attachments.Blank, calls, urls).state
    case Other(v) => v.Obj? && item == v.ref
  }

  class Message {
    var text: string
    var username: string
    var channel: string
    var iconUrl: string
    var attachments: seq<Attachments.Attachment>

    function State(): MessageData
      reads this
    {
      MessageData(text, username, channel, iconUrl, attachments)
    }

    /** What a setter returns: `$this`, or the exception it raised. */
    function Returns(raised: Option<Exception>): Result<Message>
    {
      match raised
      case None => Ok(this)
      case Some(e) => Err(e)
    }

    constructor()
      ensures State() == Empty
    {
      text, username, channel, iconUrl, attachments := "", "", "", "", [];
    }

    /** `toArray()`. */
    function ToArray(): seq<Entry>
      reads this
    {
      MessageArray(State())
    }

    /** `jsonSerialize()`. */
    function JsonSerialize(): seq<Entry>
      reads this
    {
      MessageJson(State())
    }

    method Text(v: Value) returns (r: Result<Message>)
      modifies this
      ensures match FilterString(v, "text")
        case Ok(s) => r == Ok(this) && State() == old(State()).(text := s)
        case Err(e) => r == Err(e) && State() == old(State())
    {
      match FilterString(v, "text")
      case Ok(s) =>
        text := s;
        r := Ok(this);
      case Err(e) =>
        r := Err(e);
    }

    method Username(v: Value) returns (r: Result<Message>)
      modifies this
      ensures match FilterString(v, "username")
        case Ok(s) => r == Ok(this) && State() == old(State()).(username := s)
        case Err(e) => r == Err(e) && State() == old(State())
    {
      match FilterString(v, "username")
      case Ok(s) =>
        username := s;
        r := Ok(this);
      case Err(e) =>
        r := Err(e);
    }

    method Channel(v: Value) returns (r: Result<Message>)
      modifies this
      ensures match FilterString(v, "channel")
        case Ok(s) => r == Ok(this) && State() == old(State()).(channel := s)
        case Err(e) => r == Err(e) && State() == old(State())
    {
      match FilterString(v, "channel")
      case Ok(s) =>
        channel := s;
        r := Ok(this);
      case Err(e) =>
        r := Err(e);
    }

    method IconUrl(v: Value, urls: UrlFilter) returns (r: Result<Message>)
      modifies this
      ensures match FilterUri(v, urls)
        case Ok(u) => r == Ok(this) && State() == old(State()).(iconUrl := u)
        case Err(e) => r == Err(e) && State() == old(State())
    {
      match FilterUri(v, urls)
      case Ok(u) =>
        iconUrl := u;
        r := Ok(this);
      case Err(e) =>
        r := Err(e);
    }

    /** `attachment($attachment)`: a callable configures a fresh
        `Attachment`, which is appended unless the callable raised; an
        `Attachment` is appended as it is; anything else raises. */
    method Attachment(arg: AttachmentArg, urls: UrlFilter) returns (r: Result<Message>)
      modifies this
      ensures r == Returns(Rejection(arg, urls))
      ensures r.Err? ==> State() == old(State())
      ensures r.Ok? ==> State() == old(State()).(attachments := attachments)
      ensures r.Ok? ==> |attachments| == |old(attachments)| + 1 && attachments[..|old(attachments)|] == old(attachments)
      ensures r.Ok? ==> Made(arg, attachments[|attachments| - 1], urls)
      ensures r.Ok? && arg.Callable? ==> fresh(attachments[|attachments| - 1])
    {
      match arg
      case Callable(calls) =>
        var item := new Attachments.Attachment();
        var outcome := item.Apply(calls, urls);
        if outcome.Err? {
          return Err(outcome.error);
        }
        attachments := attachments + [item];
        r := Ok(this);
      case Instance(item) =>
        attachments := attachments + [item];
        r := Ok(this);
      case Other(v) =>
        if IsAttachmentObject(v) {
          attachments := attachments + [v.ref as Attachments.Attachment];
          r := Ok(this);
        } else {
          r := Err(NotAnAttachment);
        }
    }

    /** `attachments($attachments)`: empties the list, then adds the
        arguments one by one until one is rejected; the earlier ones stay.
        `None` stands for a value `foreach` cannot iterate over, which
        leaves the list empty. */
    method Attachments(args: Option<seq<AttachmentArg>>, urls: UrlFilter) returns (r: Result<Message>)
      modifies this
      ensures args.None? ==> r == Ok(this) && State() == old(State()).(attachments := [])
      ensures args.Some? ==> var k := Accepted(args.value, urls);
        && r == Returns(if k < |args.value| then Rejection(args.value[k], urls) else None)
        && State() == old(State()).(attachments := attachments)
        && |attachments| == k
        && (forall i :: 0 <= i < k ==> Made(args.value[i], attachments[i], urls))
        && (forall i :: 0 <= i < k && args.value[i].Callable? ==> fresh(attachments[i]))
    {
      attachments := [];
      if args.None? {
        return Ok(this);
      }
      var xs := args.value;
      var i := 0;
      while i < |xs|
        invariant 0 <= i <= |xs|
        invariant forall j :: 0 <= j < i ==> Rejection(xs[j], urls).None?
        invariant State() == old(State()).(attachments := attachments)
        invariant |attachments| == i
        invariant forall j :: 0 <= j < i ==> Made(xs[j], attachments[j], urls)
        invariant forall j :: 0 <= j < i && xs[j].Callable? ==> fresh(attachments[j])
      {
        var step := Attachment(xs[i], urls);
        if step.Err? {
          AcceptedIsFirstRejection(xs, i, urls);
          return step;
        }
        i := i + 1;
      }
      AcceptedIsFirstRejection(xs, i, urls);
      r := Ok(this);
    }
  }

  /** `Accepted` is the index of the first rejected argument. */
  lemma {:induction false} AcceptedIsFirstRejection(args: seq<AttachmentArg>, k: nat, urls: UrlFilter)
    requires k <= |args|
    requires forall j :: 0 <= j < k ==> Rejection(args[j], urls).None?
    requires k < |args| ==> Rejection(args[k], urls).Some?
    ensures Accepted(args, urls) == k
    decreases k
  {
    if k > 0 {
      AcceptedIsFirstRejection(args[1..], k - 1, urls);
    }
  }

  /** Setting the text twice keeps the second value: the message is mutable
      and its setters are last-write-wins. */
  method OverwriteText(m: Message, first: Value, second: Value) returns (r: Result<Message>)
    modifies m
    ensures FilterString(first, "text").Err? ==> r == Err(FilterString(first, "text").error) && m.State() == old(m.State())
    ensures FilterString(first, "text").Ok? && FilterString(second, "text").Ok? ==>
      r == Ok(m) && m.State() == old(m.State()).(text := FilterString(second, "text").value)
    ensures FilterString(first, "text").Ok? && FilterString(second, "text").Err? ==>
      r == Err(FilterString(second, "text").error) && m.State() == old(m.State()).(text := FilterString(first, "text").value)
  {
    r := m.Text(first);
    if r.Err? {
      return;
    }
    r := m.Text(second);
  }
}
