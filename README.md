# Mattermost webhook payloads, modelled in Dafny

This project models the payload-building layer of the PHP library
`carpediem/mattermost-webhook`: the two fluent builders `Attachment` and
`Message`, and the stateless helpers they run every argument through.

- `Php` (`php.dfy`): the PHP values the layer sees and the built-ins it
  relies on. This covers `trim` with its default character list, `strtolower`
  (ASCII only), `gettype`, the `(bool)` cast and `__toString`. URL validation
  is a parameter (see "Left out").
- `Functions` (`functions.dfy`): `filter_string`, `filter_uri`,
  `filter_array_value` and the `array_filter` call that uses it.
- `Attachments` (`attachment.dfy`): the twelve properties of an attachment.
  - `Perform` and `Run` are pure functions that give each setter call a
    meaning on a snapshot of the properties.
  - The class `Attachment` changes its fields in place. Each of its setters
    is proved to do what `Perform` says.
- `Messages` (`messages.dfy`): the class `Message`, its four string
  properties and its attachment list.

Every setter returns `Result<...>`: `Ok(this)`, which stands for PHP's
`return $this`, or `Err(e)` for the exception it raised. The exception
message texts are not modelled. An error records the property name and the
`gettype` of the value (`filter_string`), or the raw value (`filter_uri`).

The model follows the code as written, including its quirks:

- `filter_uri` always tells `filter_string` its name is `'name'`.
- `filter_uri` rejects any value that trims to `''` or `'0'`, because it
  tests the result of `filter_var` for truthiness.
- `Attachment::text` stores its argument unfiltered.
- `authorIcon` is only trimmed, never URL-checked.
- `title` stores the title before it validates the link.
- `title_link` is reset to `null`.
- `fields()` and `attachments()` empty their list before the loop, so the
  list is not restored when an element is rejected.

The tests disagree with the code in two places, and the model follows the
code in both:

- tests/AttachmentTest.php:5 imports classes from
  `Carpediem\Mattermost`, while the code lives in
  `Carpediem\Mattermost\Webhook`.
- tests/AttachmentTest.php:47 expects a `TypeError` for a non-stringable
  fallback, but `filter_string` raises the library's own `Exception`.

## Model

| member | source | states |
|---|---|---|
| Php.TrimStart | src/functions.php:18 | the left half of `trim`: the result is no longer than the input and does not start with a character from " \t\n\r\0\x0B" |
| Php.TrimEnd | src/functions.php:18 | the right half of `trim`: the result is no longer than the input and does not end with such a character |
| Php.TrimStartSuffix | src/functions.php:18 | the left half of `trim` removes only a prefix made of strippable characters, and keeps the rest as it was |
| Php.TrimEndPrefix | src/functions.php:18 | the right half of `trim` removes only a suffix made of strippable characters, and keeps the rest as it was |
| Php.Trim | src/functions.php:18 | `trim` returns a string with no strippable character at either end |
| Php.TrimSplits | src/functions.php:18 | `trim(s)` is a contiguous slice of `s`, and everything cut off on either side is strippable, so the inner content is unchanged |
| Php.TrimStartDrops | src/functions.php:18 | the left half of `trim` drops exactly a strippable prefix that is followed by a non-strippable character |
| Php.TrimEndDrops | src/functions.php:18 | the right half of `trim` drops exactly a strippable suffix that is preceded by a non-strippable character |
| Php.TrimUnique | src/functions.php:18 | any split of `s` into a strippable prefix, a core with non-strippable ends and a strippable suffix has `trim(s)` as its core |
| Php.TrimFixesTrimmed | src/functions.php:18 | a string with nothing to strip at either end is its own `trim` |
| Php.TrimIdempotent | src/functions.php:18 | `trim(trim(s)) == trim(s)` |
| Functions.HttpSchemeIgnoresCase | src/functions.php:42-43 | the lower-cased scheme test accepts a scheme exactly when it spells "http" or "https" with any letters in upper case, and rejects every other scheme |
| Functions.FilterString | src/functions.php:15-22 | succeeds exactly for strings and objects with `__toString`, and then returns their `trim`; otherwise raises, naming `$name` and `gettype($var)` |
| Functions.FilterStringIdempotent | src/functions.php:17-18 | applying `filter_string` to its own output returns the same result, whatever name is passed |
| Functions.FilterUri | src/functions.php:35-48 | succeeds iff the trimmed value validates as a URL, is truthy and has a lower-cased scheme of `http` or `https`; the result is the trimmed value; a non-stringable value raises under the name `'name'`, a value that fails validation raises "malformed", and a valid URL with another scheme raises "scheme not allowed" |
| Functions.FilterUriFixesAccepted | src/functions.php:37-47 | every URL `filter_uri` can return is returned unchanged when filtered again |
| Functions.FilterUriRejectsEmpty | src/functions.php:37-40 | `''` and a whitespace-only string are malformed URLs, whatever the validator says |
| Functions.MalformedWhenInvalid | src/functions.php:37-40 | an already-trimmed string that fails validation raises "malformed" with the raw value |
| Functions.FilterUriRejectsSchemeRelative | tests/MessageTest.php:43-47 | under PHP's validation, `//github.com` raises "malformed" |
| Functions.FilterUriRejectsWebSocket | tests/AttachmentTest.php:51-55 | under PHP's validation, `wss://github.com` raises: either it does not validate, or its scheme is not http(s) |
| Functions.FilterUriAcceptsTestUrl | src/functions.php:42-47 | under PHP's validation, `https://example.com/photo.png` comes back unchanged |
| Functions.FilterArrayValueCases | src/functions.php:61-65 | the keep-predicate drops null, booleans, numbers, objects, `''` and `[]`; it keeps only strings and arrays, and it keeps `'0'` even though `'0'` is falsy |
| Functions.FilterArray | src/Attachment.php:133 | `array_filter` never grows the array, and every entry it returns passes the keep-predicate |
| Functions.FilterArrayMembers | src/Attachment.php:133 | an entry, with its key, is in the result iff it was in the input and its value passes |
| Functions.FilterArrayAppend | src/Attachment.php:133 | filtering distributes over concatenation, so the kept entries stay in their original order |
| Functions.FilterArraySingle | src/Attachment.php:133 | a one-entry array keeps its entry iff the value passes |
| Functions.FilterArrayDropsAll | src/Attachment.php:133 | an array with no passing value filters to nothing |
| Attachments.AttachmentArray | src/Attachment.php:141-144 | `toArray` has twelve entries, each under its property's name, in declaration order from `fallback` to `thumb_url` |
| Attachments.BlankSerializesToNothing | src/Attachment.php:27-134 | on a fresh attachment every value is null except `fields`, which is `[]`, and `jsonSerialize` is empty |
| Attachments.FallbackOnlySerialization | src/Attachment.php:131-134 | an attachment whose only set property is a non-empty fallback serializes to exactly that one entry |
| Attachments.FieldsAreSerialized | src/Attachment.php:131-134 | a non-empty field table always appears in `jsonSerialize` |
| Attachments.MakeRow | src/Attachment.php:307-316 | the row `field` builds succeeds iff title and value are stringable; the title is checked first; both are stored trimmed and `short` as `(bool)$short` |
| Attachments.CollectRows | src/Attachment.php:287-295 | `fields` builds one row per element, in order, each as `field(...$element)` would; it stops at the first rejected element, which raised the exception it reports |
| Attachments.CollectRowsStops | src/Attachment.php:290-292 | after an element has been rejected, the later elements make no difference |
| Attachments.RunStops | src/Attachment.php:151-340 | once a setter call raises, the later calls in the sequence are never made |
| Attachments.PerformTouchesOnlyItsOwn | src/Attachment.php:151-340 | every setter leaves every property other than its own unchanged (`title` owns `title` and `title_link`) |
| Attachments.FailedCallChangesNothing | src/Attachment.php:151-258 | a setter other than `title` or `fields` that raises leaves the attachment as it was |
| Attachments.StringSettersStoreFiltered | src/Attachment.php:151-258 | `fallback`, `color`, `pretext`, `authorName` and `authorIcon` store exactly `filter_string` of their argument, or raise what it raises and change nothing |
| Attachments.PresetColors | src/Attachment.php:175-198 | `success`, `error` and `info` set `color` to `#22BC66`, `#DC4D2F` and `#3869D4`, change nothing else and never raise |
| Attachments.TextStoredVerbatim | src/Attachment.php:217-222 | `text` stores its argument as given, with no trimming or validation, and never raises |
| Attachments.FieldAppendsOneRow | src/Attachment.php:307-316 | `field` appends exactly one row holding the trimmed title, the trimmed value and `(bool)$short`, and keeps the earlier rows; if either filter raises, nothing is appended |
| Attachments.UrlSetterStoresAccepted | src/Attachment.php:335-340 | `thumbUrl` stores only URLs `filter_uri` accepts; it raises iff `filter_uri` does, and then the property keeps its old value |
| Attachments.TitleWithoutLinkResetsLink | src/Attachment.php:266-273 | with no link, or with a title that trims to `''`, `title` stores the trimmed title and sets `title_link` to null |
| Attachments.TitleWithLinkStoresBoth | src/Attachment.php:266-278 | with a non-empty title and an accepted link, `title` stores both |
| Attachments.TitleStoredBeforeLinkFails | src/Attachment.php:268-275 | with a non-empty title and a rejected link, `title` raises after storing the title, and the old `title_link` is kept |
| Attachments.RunAppend | src/Attachment.php:151-340 | one more call after a chain of calls is made on the state the chain left, unless the chain raised |
| Attachments.RunConcat | src/Attachment.php:151-340 | a chain of calls split anywhere into two: the second part runs on the state the first part left, unless the first part raised, in which case nothing after it happens |
| Attachments.TitleStep | src/Attachment.php:266-278 | `title` with a trimmed non-empty string and an accepted link stores both and does not raise |
| Attachments.TitleOnlyStep | src/Attachment.php:266-273 | `title` with a trimmed string and no link stores it and resets the link |
| Attachments.OverwritingTitleKeepsThumbnail | tests/AttachmentTest.php:57-72 | after `info`, `thumbUrl` and a linked `title`, a second `title` replaces the title and drops the link, while the thumbnail and colour stay |
| Attachments.CollectedRowsTrimmed | src/Attachment.php:287-316 | every row that `fields` stores has a trimmed title and a trimmed value |
| Attachments.PerformKeepsSound | src/Attachment.php:151-340 | whether it succeeds or raises, no setter call breaks the invariant: string properties hold trimmed strings, links and images hold URLs `filter_uri` accepts, and rows are trimmed |
| Attachments.StringSettersKeepSound | src/Attachment.php:151-258 | the filtering setters, `text` and the colour presets keep that invariant |
| Attachments.UrlSettersKeepSound | src/Attachment.php:241-246 | `authorLink`, `imageUrl` and `thumbUrl` keep that invariant |
| Attachments.TitleKeepsSound | src/Attachment.php:266-278 | `title` keeps that invariant, on all three of its paths |
| Attachments.FieldSettersKeepSound | src/Attachment.php:287-316 | `field` and `fields` keep that invariant |
| Attachments.RunKeepsSound | src/Attachment.php:151-340 | any sequence of setter calls keeps that invariant |
| Attachments.ConfiguredIsSound | src/Attachment.php:27-340 | every attachment configured from a fresh one satisfies that invariant |
| Attachments.Attachment.constructor | src/Attachment.php:27-126 | a new attachment has every property null except `fields`, which is `[]` |
| Attachments.Attachment.Fallback | src/Attachment.php:151-156 | stores `filter_string($fallback)` and returns `$this`, or raises and changes nothing |
| Attachments.Attachment.Color | src/Attachment.php:163-168 | stores `filter_string($color)` and returns `$this`, or raises and changes nothing |
| Attachments.Attachment.Success | src/Attachment.php:175-178 | sets `color` to `#22BC66` through `color()` and returns `$this` |
| Attachments.Attachment.Error | src/Attachment.php:185-188 | sets `color` to `#DC4D2F` through `color()` and returns `$this` |
| Attachments.Attachment.Info | src/Attachment.php:195-198 | sets `color` to `#3869D4` through `color()` and returns `$this` |
| Attachments.Attachment.Pretext | src/Attachment.php:205-210 | stores `filter_string($pretext)` and returns `$this`, or raises and changes nothing |
| Attachments.Attachment.Text | src/Attachment.php:217-222 | stores its argument unchanged and returns `$this` |
| Attachments.Attachment.AuthorName | src/Attachment.php:229-234 | stores `filter_string($author_name)` and returns `$this`, or raises and changes nothing |
| Attachments.Attachment.AuthorLink | src/Attachment.php:241-246 | stores `filter_uri($author_link)` and returns `$this`, or raises and changes nothing |
| Attachments.Attachment.AuthorIcon | src/Attachment.php:253-258 | stores `filter_string($author_icon)` only (no URL check) and returns `$this`, or raises and changes nothing |
| Attachments.Attachment.Title | src/Attachment.php:266-278 | does what `Perform` gives for `title`: the title first, then the link is reset, stored or rejected; only `title` and `title_link` can change |
| Attachments.Attachment.Field | src/Attachment.php:307-316 | appends the row `MakeRow` builds and returns `$this`, or raises and appends nothing |
| Attachments.Attachment.SpreadField | src/Attachment.php:291 | `field(...$args)`: fewer than two values is an argument-count error, and a missing third value defaults `short` to true |
| Attachments.Attachment.Fields | src/Attachment.php:287-295 | replaces the table with the rows `CollectRows` builds, and raises what it reports; the loop is proved against `CollectRows` |
| Attachments.Attachment.ImageUrl | src/Attachment.php:323-328 | stores `filter_uri($image_url)` and returns `$this`, or raises and changes nothing |
| Attachments.Attachment.ThumbUrl | src/Attachment.php:335-340 | stores `filter_uri($thumb_url)` and returns `$this`, or raises and changes nothing |
| Attachments.Attachment.Invoke | src/Attachment.php:151-340 | each setter of the class does to the fields exactly what `Perform` says, and returns `$this` unless it raised |
| Attachments.Attachment.InvokeUrlSetter | src/Attachment.php:241-246 | the URL setters agree with `Perform` |
| Attachments.Attachment.InvokePreset | src/Attachment.php:175-198 | the colour presets agree with `Perform` |
| Attachments.Attachment.InvokeStringSetter | src/Attachment.php:151-258 | the string setters and `text` agree with `Perform` |
| Attachments.Attachment.Apply | src/Attachment.php:151-340 | a chain of setter calls on one object, stopped by the first exception, does exactly what `Run` says |
| Messages.AttachmentsValue | src/Message.php:54 | the `attachments` value of `toArray` lists the objects themselves, in order, under the keys 0, 1, … |
| Messages.MessageJsonKeepsNonEmpty | src/Message.php:59-72 | `jsonSerialize` keeps `text`, `username`, `channel` and `icon_url` iff they are non-empty, and `attachments` iff the list is non-empty, in declaration order |
| Messages.EmptySerializesToNothing | tests/MessageTest.php:15-20 | a fresh message's `toArray` has its five keys, and its `jsonSerialize` is empty |
| Messages.Accepted | src/Message.php:155-163 | the number of leading arguments `attachments` gets through: all of them are accepted, and the next one, if any, is rejected |
| Messages.AcceptedIsFirstRejection | src/Message.php:158-160 | the index of the first rejected argument is exactly `Accepted` |
| Messages.Message.constructor | src/Message.php:26-54 | a new message has four empty strings and no attachments |
| Messages.Message.Text | src/Message.php:79-84 | stores `filter_string($text)` and returns `$this`, or raises and changes nothing |
| Messages.Message.Username | src/Message.php:91-96 | stores `filter_string($username)` and returns `$this`, or raises and changes nothing |
| Messages.Message.Channel | src/Message.php:103-108 | stores `filter_string($channel)` and returns `$this`, or raises and changes nothing |
| Messages.Message.IconUrl | src/Message.php:115-120 | stores `filter_uri($icon_url)` and returns `$this`, or raises and changes nothing |
| Messages.Message.Attachment | src/Message.php:129-146 | an instance is appended as it is, also when it is passed as a plain object value (`instanceof`); a callable's fresh attachment is appended after the callable has configured it, unless the callable raised; anything else raises; the earlier attachments and the other properties stay |
| Messages.Message.Attachments | src/Message.php:155-163 | empties the list, then appends the accepted leading arguments in order, each as `attachment` would; the first rejected one raises, and the ones before it stay |
| Messages.OverwriteText | tests/MessageTest.php:55-63 | setting the text twice keeps the second value and changes nothing else; if the second value is rejected, its exception is raised and the first value stays |

## Left out

- src/Client.php and src/ClientInterface.php post the payload over HTTP through Guzzle, which is I/O; they are not part of this model. Neither is the live script tests/test.php.
- src/AttachmentInterface.php and src/MessageInterface.php declare getters that the two classes neither implement nor use, so they are not part of this model.
- `FILTER_VALIDATE_URL` and `parse_url` are PHP internals. They appear as a parameter `UrlFilter`, which holds a validity test and a scheme extractor. Only the facts the tests rely on are assumed, through `AgreesWithPhp`: `//github.com` does not validate; `wss://github.com` has scheme `wss` if it validates; `https://example.com/photo.png` validates with scheme `https`.
- Attachments.OverwritingTitleKeepsThumbnail is stated for any thumbnail and link that `filter_uri` accepts and any trimmed titles, not for the test's literal documentation URL. Whether PHP accepts that URL is a fact about the validator.
- A PHP callable passed to `Message::attachment` is modelled as the sequence of setter calls it makes on the fresh attachment. Every callable value (a Closure, an invokable object, a `[$object, 'method']` array) is taken to be passed as `Callable`; given as `Other`, it is rejected. A script cannot catch a setter's exception and go on, nor raise an exception of its own. Also left out: any other side effect of the callable, and strings that name global functions (`is_callable('foobar')`).
- `json_encode` and the nested `jsonSerialize` of the attachments in a message are not modelled. A message's serialization stops at the attachment objects.
- Messages.Message.Attachments: `None` stands for any value `foreach` cannot iterate. The model leaves out the iteration over the public properties of a non-Traversable object.
- Attachments.Attachment.Fields: every element of the list is taken to be an array. The model leaves out PHP's error for unpacking a non-array, and named arguments from string keys.
- The exception message texts built with `sprintf` are not modelled, only which exception is raised and with what arguments.
- Attachments.Attachment.Fields: a call with a non-array argument cannot be expressed, because the model's parameter type is a list of argument lists. PHP's `TypeError` for such a call is left out.
- Messages.Message: `attachments` is public in PHP (src/Message.php:54), so callers may store any value in it. The model keeps it to a list of Attachment objects under the keys 0..n-1.
- Attachments.SpreadRow: `TooFewArguments` stands for the `ArgumentCountError` that PHP 7.1 and later throws when `field()` is unpacked with fewer than two arguments. Older PHP versions only warn and pass `null`; the model does not follow them.
- A PHP float is modelled as a Dafny `real`, which has no NaN and no infinities. A PHP string is a sequence of bytes; the model uses sequences of characters, so byte-level behaviour (multibyte text in `trim` and `strtolower`) is not captured.
- Each operation that checks URLs takes the validator `urls` as a parameter, where PHP has one global `filter_var`. Every property is stated for all validators, so it holds in particular when all calls share one.
