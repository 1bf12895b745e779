# Thumbor URL builder, modelled in Dafny

This project models `Thumbor\Builder` from `src/Builder.php`. The builder is a
fluent, mutable object that collects image directives for one source image:

- a crop box;
- one resize form: `resize`, `fitIn` or `fullFitIn`;
- a trim;
- an ordered list of filter calls;
- the image URL.

`build()` joins the directives into a path, in a fixed order. It then puts the
server and a signature segment in front. The signature segment is `unsafe` when
the secret is falsy. Otherwise it is the URL-safe base 64 text of the
HMAC-SHA1 of the path under the secret.

Modules:

- `Php` (`php.dfy`): the PHP behaviour the builder relies on.
  - PHP truthiness: `null`, `""` and `"0"` are falsy.
  - `implode`, with `explode` as its inverse partner.
  - `array_filter` without a callback.
- `Decimal` (`decimal.dfy`): how PHP writes an `int` inside a string, with a
  parser as its partner.
- `Base64` (`base64.dfy`): `base64_encode`, section 4 of RFC 4648, with padding.
  A decoder is its partner.
- `Signing` (`signing.dfy`): `sign()`. This is base 64 of the digest, followed by
  `strtr(…, '/+', '_-')`. HMAC-SHA1 is the parameter `mac`.
- `ThumborPath` (`path.dfy`):
  - the directive strings each setter stores;
  - the path `build()` signs;
  - the signature segment and the finished URL;
  - parsers that read each directive back.
- `Thumbor` (`builder.dfy`): `class Builder`.
  - Its fields are the source's private fields.
  - Each setter is a method with `modifies this`. It states the whole new
    state as the old state with one field replaced (or one filter appended).
  - `Build` and `ToString` are functions of the fields.
- `BuilderScenarios` (`scenarios.dfy`): clients of the builder.
  - Eight methods reproduce the URLs of `tests/BuilderTest.php:34-89`. Each
    drives a fresh builder, promises the expected string, and returns both
    `build()` and `__toString()`, as the test compares both.
  - Three more state behaviour of `src/Builder.php` itself: call order does
    not matter (`CallOrderScenario`), the last resize form wins with its
    default sizes (`LastWriteScenario`), and an empty builder with secret
    `"0"` gives `server/unsafe/` (`EmptyScenario`).
  - The lemma `Unsigned` is what the unsigned ones share.

Unsigned mode is usually described as "no secret, or an empty one". The code
tests PHP truthiness at `src/Builder.php:206`, so a secret of `"0"` also gives
`unsafe`. The model follows the code: see `ThumborPath.Signature` and
`BuilderScenarios.EmptyScenario`. For the same reason:

- a url of `"0"` is left out of the path (`src/Builder.php:198`);
- a trim orientation or tolerance of `"0"` is not written (`src/Builder.php:172`).

## Model

| member | source | states |
|---|---|---|
| Php.Truthy | src/Builder.php:206 | PHP truthiness of a string or `null`: `null`, `""` and `"0"` are falsy, every other string is truthy. A definition; `DirectivesTruthy` and `PathEmpty` state its consequences. |
| Php.Implode | src/Builder.php:198 | `implode` with a one-character glue: the pieces with the glue between each two. A definition; `ExplodeImplode` and `ImplodeExplode` are its partners. |
| Php.ArrayFilter | src/Builder.php:198-204 | `array_filter` without a callback, re-indexed: never longer than its input, and every member kept is truthy. Its partners `FilteredSlots` and `ArrayFilterEmpty` state that every truthy member is kept, in order, and nothing else. |
| Php.ExplodeImplode | src/Builder.php:198 | Splitting at the glue undoes `implode` when no piece contains the glue. |
| Php.ImplodeExplode | src/Builder.php:198 | Joining the pieces of `explode` gives back the original string. |
| Php.FilteredSlots | src/Builder.php:198-204 | The joined truthy members, with one more glue at the end, equal each member's slot concatenated in order. A slot is the member and a glue when truthy, and nothing otherwise. |
| Php.ArrayFilterEmpty | src/Builder.php:198-204 | `array_filter` leaves nothing exactly when no member is truthy. |
| Decimal.IntToString | src/Builder.php:91 | PHP's decimal text of an int: not empty, all digits except a leading `-`, which appears exactly for negative ints, and no leading zero (a text starting with `0` is the int 0, and no `-0…`). |
| Decimal.IntRoundTrip | src/Builder.php:91 | The decimal text of an int parses back to the same int, sign included. |
| Decimal.IntToStringInjective | src/Builder.php:91 | Two ints have the same decimal text if and only if they are equal. |
| Base64.Encode | src/Builder.php:221 | `base64_encode`: each 3 bytes become 4 characters of the alphabet, with `=` padding for one or two bytes left over. A definition; `EncodeLength`, `Padding` and `RoundTrip` state its properties. |
| Base64.EncodeLength | src/Builder.php:221 | `base64_encode` of n bytes has 4·⌈n/3⌉ characters. |
| Base64.Padding | src/Builder.php:221 | The number of trailing `=` is fixed by the input length mod 3: none when it is 0, exactly two (the character before them is not `=`) when it is 1, and exactly one when it is 2. |
| Base64.RoundTrip | src/Builder.php:221 | Decoding the encoding gives back the bytes. |
| Base64.EncodeInjective | src/Builder.php:221 | Two byte strings have the same encoding if and only if they are equal. |
| Signing.UrlSafe | src/Builder.php:221 | `strtr(…, '/+', '_-')`: the same length, with no `/` and no `+` left. |
| Signing.UrlSafeRoundTrip | src/Builder.php:221 | On text without `_` or `-`, the `strtr` substitution `'/+' → '_-'` can be undone. |
| Signing.Sign | src/Builder.php:219-222 | The signature of a 20-byte digest is 28 characters. It has no `/` and no `+`, ends in exactly one `=`, and so is always a single path segment. |
| Signing.SignatureDeterminesDigest | src/Builder.php:219-222 | Two signatures are equal if and only if the two HMAC digests are equal. |
| Signing.SignatureDecodes | src/Builder.php:219-222 | Undoing the substitution and base 64 on a signature gives back the HMAC digest. |
| ThumborPath.CropSpec | src/Builder.php:91 | The crop field `{l}x{t}:{r}x{b}`, the ints in decimal. A definition; `CropRoundTrip` is its partner. |
| ThumborPath.ResizeSpec | src/Builder.php:119-154 | The one resize field: `{w}x{h}` after nothing, `fit-in/` or `full-fit-in/`. A definition; `ResizeRoundTrip` is its partner. |
| ThumborPath.TrimSpec | src/Builder.php:172 | `trim`, then `:` and the orientation if truthy, then `:` and the tolerance if truthy. A definition; `TrimJoin` and `TrimFields` are its partners. |
| ThumborPath.FilterCall | src/Builder.php:106 | One filter entry: the name, `(`, the arguments joined by `,`, and `)`. A definition; `FilterCallFields` is its partner. |
| ThumborPath.FiltersSegment | src/Builder.php:202 | `filters:` and the calls joined by `:`, or the empty string when there are no filters. A definition; `FiltersFields` and `FiltersAppend` are its partners. |
| ThumborPath.Path | src/Builder.php:198-204 | `implode('/', array_filter([...]))` over trim, crop, resize, the filters segment and url. A definition; `PathSegments`, `PathEmpty` and `PathLayout` state its properties. |
| ThumborPath.Signature | src/Builder.php:206 | The segment has no `/`. It is `unsafe` if and only if the secret is null or PHP-falsy. |
| ThumborPath.BuildUrl | src/Builder.php:208 | The URL is the server, `/`, the signature segment, `/` and the path. |
| ThumborPath.UrlSegments | src/Builder.php:206-208 | The URL reads back as its parts. After the server and `/`, the first `/`-separated piece is the signature segment, which is `unsafe` exactly for a falsy secret. The rest after that `/` is the path. |
| ThumborPath.PathSegments | src/Builder.php:198-204 | A helper that works `array_filter` out field by field: the path joins with `/` the truthy segments in the fixed order trim, crop, resize, filters, url. |
| ThumborPath.PathEmpty | src/Builder.php:198-204 | The path is empty exactly when trim, crop, resize and url are all falsy and there are no filters. |
| ThumborPath.EmptyUrl | src/Builder.php:198-208 | With trim, crop, resize and url all falsy and no filters, the URL is the server, `/`, the signature segment of the empty path and `/`, so it ends in `/`. |
| ThumborPath.PathLayout | src/Builder.php:198-204 | A non-empty path followed by `/` is each truthy segment followed by `/`, in the fixed order, whatever order the setters ran in. |
| ThumborPath.PathEndsWithUrl | src/Builder.php:198-204 | With a truthy url, the path is the other truthy segments, each followed by `/`, and then the url. |
| ThumborPath.PathStartsWith | src/Builder.php:198-204 | With no trim, a set crop box is the start of the path. |
| ThumborPath.CropFollowsSignature | src/Builder.php:198-208 | With no trim, the URL begins with the server, the signature segment and the crop box. |
| ThumborPath.DirectivesTruthy | src/Builder.php:198-204 | Every crop, resize and trim string the setters write is truthy, so `array_filter` keeps it. The filters segment is truthy if and only if there is a filter. |
| ThumborPath.DimensionsRoundTrip | src/Builder.php:151 | `{w}x{h}` parses back to the two ints and contains no `:` or `/`. |
| ThumborPath.CropRoundTrip | src/Builder.php:89-94 | The crop string `{l}x{t}:{r}x{b}` parses back to the four corners. |
| ThumborPath.ResizeRoundTrip | src/Builder.php:119-154 | The resize field shows which of `resize`, `fitIn` or `fullFitIn` wrote it, and with which sizes. |
| ThumborPath.PrefixedSpec | src/Builder.php:119-139 | `fit-in/…` and `full-fit-in/…` split into the form's name and the sizes. |
| ThumborPath.TrimFields | src/Builder.php:170-175 | When neither argument contains `:`, the trim string splits at `:` into `trim`, then the orientation if truthy, then the tolerance if truthy, in that order. |
| ThumborPath.TrimJoin | src/Builder.php:172 | The trim string is `trim` and the truthy arguments, joined by `:`. |
| ThumborPath.FilterCallFields | src/Builder.php:106 | When the name has no `(`, there is at least one argument and no argument contains `,` or `(`, a filter call splits at `(` into the name and the comma-joined arguments followed by `)`, and the arguments split back at `,`. |
| ThumborPath.FiltersFields | src/Builder.php:202 | When there is at least one filter and no filter call contains `:`, the filters segment splits at `:` into `filters` followed by every filter call, in the order they were added. |
| ThumborPath.FiltersAppend | src/Builder.php:106 | One more filter appends `:` and its call to the segment, or starts the segment with `filters:` when it is the first. |
| Thumbor.Builder.constructor | src/Builder.php:73-77 | Server and secret are stored. Nothing else is set, and there are no filters. |
| Thumbor.Builder.Crop | src/Builder.php:89-94 | The crop field becomes `{l}x{t}:{r}x{b}`. Every other field is unchanged, and the builder itself is returned. |
| Thumbor.Builder.Filter | src/Builder.php:104-109 | One call `name(args)` is appended. The earlier filters are a prefix, the length grows by one, and nothing else changes. |
| Thumbor.Builder.FitIn | src/Builder.php:119-124 | The single resize field becomes `fit-in/{w}x{h}` (sizes default to 0). Nothing else changes. |
| Thumbor.Builder.FullFitIn | src/Builder.php:134-139 | The single resize field becomes `full-fit-in/{w}x{h}` (sizes default to 0). Nothing else changes. |
| Thumbor.Builder.Resize | src/Builder.php:149-154 | The single resize field becomes `{w}x{h}` (sizes default to 0). Nothing else changes. |
| Thumbor.Builder.Trim | src/Builder.php:170-175 | Only the trim field changes. It becomes the trim string of the two optional arguments. |
| Thumbor.Builder.Url | src/Builder.php:184-189 | Only the url field changes. |
| Thumbor.Builder.Build | src/Builder.php:196-209 | The result is the server, the signature segment of the current path and the path, joined by `/`. It reads the builder and changes nothing. |
| Thumbor.Builder.ToString | src/Builder.php:229-232 | `__toString()` is the same string as `build()`. |
| BuilderScenarios.Unsigned | src/Builder.php:198-208 | With a falsy secret and a truthy url, the URL is the server, `/unsafe/`, the directive segments and `/`, and then the url. |
| BuilderScenarios.CropScenario | tests/BuilderTest.php:34-40 | `crop(100, 200, 300, 400)` with secret `""` gives `…/unsafe/100x200:300x400/<url>`. `__toString()` gives the same string. |
| BuilderScenarios.ResizeScenario | tests/BuilderTest.php:41-47 | `resize(100, 200)` gives `…/unsafe/100x200/<url>`. `__toString()` gives the same string. |
| BuilderScenarios.SignedResizeScenario | tests/BuilderTest.php:48-54 | With secret `abc`, the segment after the server is `sign` of the path `100x200/<url>` under `abc`. `__toString()` gives the same string. |
| BuilderScenarios.FitInScenario | tests/BuilderTest.php:55-61 | `fitIn(100, 200)` gives `…/unsafe/fit-in/100x200/<url>`. `__toString()` gives the same string. |
| BuilderScenarios.FullFitInScenario | tests/BuilderTest.php:62-68 | `fullFitIn(100, 200)` gives `…/unsafe/full-fit-in/100x200/<url>`. `__toString()` gives the same string. |
| BuilderScenarios.TrimScenario | tests/BuilderTest.php:69-75 | `trim()` gives `…/unsafe/trim/<url>`. `__toString()` gives the same string. |
| BuilderScenarios.TrimOrientationScenario | tests/BuilderTest.php:76-82 | `trim('top-left')` gives `…/unsafe/trim:top-left/<url>`. `__toString()` gives the same string. |
| BuilderScenarios.FilterScenario | tests/BuilderTest.php:83-89 | `filter('gifv', 'mp4')` gives `…/unsafe/filters:gifv(mp4)/<url>`. `__toString()` gives the same string. |
| BuilderScenarios.CallOrderScenario | src/Builder.php:198-204 | For any arguments, crop then resize then url gives the same URL as resize then crop then url. |
| BuilderScenarios.LastWriteScenario | src/Builder.php:104-154 | `fullFitIn`, `resize` then `fitIn()`: the last resize form wins with default 0 sizes. Filters accumulate in call order. `__toString()` gives the same string. |
| BuilderScenarios.EmptyScenario | src/Builder.php:198-208 | With nothing set and secret `"0"`, the URL is the server followed by `/unsafe/`, ending in `/`. `__toString()` gives the same string. |

## Left out

- HMAC-SHA1 (`hash_hmac('sha1', …, true)`, RFC 2104 over SHA-1) is not modelled. It is the parameter `mac`: any function from a message and a key to 20 bytes. It is a foreign, bit-level cryptographic routine.
- BuilderScenarios.SignedResizeScenario: does not state the concrete signature `avUQIEshAEWnjrdSn25wgho4TdM=` of `tests/BuilderTest.php:53`, because that text depends on the real HMAC-SHA1, which is a parameter here.
- Thumbor.Builder.Filter: the arguments are strings. PHP's conversion of arbitrary values (ints, floats, booleans, null) to strings inside `implode` is not modelled.
- Thumbor.Builder.Crop, Resize, FitIn and FullFitIn take unbounded `int`s. PHP's 64-bit integer range is not modelled, because the source only interpolates its arguments and never does arithmetic on them.
- Thumbor.Builder.Crop and the other setters: the fluent `return $this` is modelled as an out-parameter that is proved to be `this`.
- Thumbor.Builder.Build: the URL is returned as a string. Strings are sequences of characters, not PHP byte strings. Base 64 and the signature work on the digest's bytes.
- `src/ThumborServiceProvider.php`, `config/thumbor.php` and `src/Facades/Thumbor.php` are not part of this model. They are framework registration, environment configuration and a facade accessor, with no logic of the builder.
- The PHPUnit mechanics of `tests/BuilderTest.php` are not modelled: the data provider and the dynamic dispatch `$builder->{$option}(...$args)`. Its data appears only as the scenarios.
