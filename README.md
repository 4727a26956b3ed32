# YouTube MCP server: the entity cleaners

This project models `DataCleaners` from `src/cleaners.ts` of the YouTube MCP server. These
functions turn the loosely shaped records returned by the YouTube Data API (videos, search
hits, channels, playlists, playlist items and transcripts) into compact records before the
server hands them to a model.

The input type is `any`, so the model works over a JSON-like value `JsValue.Json`
(undefined, null, booleans, numbers, NaN, strings, arrays, objects). Alongside it, the
model spells out the JavaScript the cleaners rely on:

- truthiness (`Truthy`);
- the two defaulting operators as two different functions, `||` (`Or`: any falsy value) and
  `??` (`Coalesce`: only null or undefined);
- property reads, with optional chaining (`OptionalGet`, and `At` for a whole path) and
  without it (`Read`, which throws on null or undefined);
- the `substring`/`slice` calls, which throw a TypeError when the value has no such method;
- `parseInt` on count strings, after the conversion to a string that it starts with and
  that throws for an object with its own `toString` key (`JsNumber`);
- `Array.prototype.map` with a callback that may throw, and `.filter(Boolean)` (`JsArray`).

A thrown TypeError is the `Threw` case of `Outcome`. A `null` result is `Option.None`.

Each entity cleaner of module `Cleaners` (`CleanVideo`, `CleanSearchResult`, `CleanChannel`,
`CleanPlaylist`, `CleanPlaylistItem`, `CleanTranscript`) returns `null` exactly for a falsy
input. The list cleaners (`CleanVideoList`, `CleanSearchResults`, `CleanPlaylistItems`) never
return `null`: they give `[]` for `null` and for any other non-array. The per-segment helper
`CleanSegment` throws on a null or undefined segment.

The video, search-hit, channel and playlist cleaners each state two further things:

- when they throw. A present description that is not a string always makes them throw.
  The video cleaner also throws on present tags that are neither an array nor a string.
  The video and channel cleaners also throw on a count that cannot be converted to a
  string. When several of these apply, the error is the one for the field evaluated first.
- for any other truthy input, they return a record. The `...Selects` predicate of that
  record ties every field to the API field it is read from, through the optional path `At`.

The playlist-item cleaner never throws, and its record is tied to the API fields in the
same way.

The transcript cleaner takes its segments from a truthy `transcript` field, or else from the
value itself. It throws exactly when that value is an array with a null or undefined
element.

Descriptions are prefixes of length min(len, 300) for videos and channels, and min(len, 200)
for search hits and playlists. Video tags are the first min(n, 5) tags, in order. A count is
present exactly when the API's count value is truthy. The list cleaners return `[]` for a
non-array. Otherwise they return one cleaned record per truthy element, in input order, or
the exception of the first element whose cleaner throws.

`cleanTranscript` does not complete missing transcript data:

- it copies `duration` unchanged, so it may be undefined rather than 0;
- a segment with neither `offset` nor `start` is not an error: its `start` is just undefined;
- only a null or undefined segment makes the cleaner throw.

## Model

| member | source | states |
|---|---|---|
| JsValue.OrCoalesceDiffer | src/cleaners.ts:83-90 | logical OR and nullish coalescing (`a ?? b`) differ exactly when `a` is falsy but not null/undefined (false, 0, NaN, "") and `b` is a different value |
| JsValue.AtSnoc | src/cleaners.ts:73 | an optional-chain path extended by one key reads that key optionally from where the path ends |
| JsValue.ReadThroughDefault | src/cleaners.ts:6-8 | reading `k2` of `v.k1` defaulted to `{}` by logical OR never reads from null and gives the same value as the optional path `v?.k1?.k2` |
| JsValue.OptionalSubstring | src/cleaners.ts:15 | `v?.substring(0, n)` is undefined for an absent value and the prefix of length min(len, n) for a string; it throws exactly on any other value |
| JsValue.OptionalSlice | src/cleaners.ts:20 | `v?.slice(0, n)` is undefined for an absent value and the first min(len, n) elements or characters, in order, of an array or string; it throws exactly on any other value |
| JsNumber.DigitRun | src/cleaners.ts:17 | the leading run that `parseInt` reads is all decimal digits and stops at the first non-digit |
| JsNumber.ParseIntString | src/cleaners.ts:17 | `parseInt` of a string is a number or NaN; it is NaN exactly when the string does not start with a digit, and otherwise the non-negative integer its leading digits denote, leading zeros included |
| JsNumber.ParseInt | src/cleaners.ts:17-19 | `parseInt` throws exactly when converting its argument to a string throws (an object with its own `toString` key, or an array holding one); otherwise it gives a number or NaN, and on a string reads its leading digits |
| JsNumber.DecimalStringValue | src/cleaners.ts:17-19 | the digits of the decimal numeral of `n` are worth `n` |
| JsNumber.DigitRunStops | src/cleaners.ts:17-19 | a digit run followed by a non-digit or by nothing is read exactly up to the non-digit |
| JsNumber.ParseIntReadsDecimal | src/cleaners.ts:17-19 | `parseInt` reads back the decimal numeral of every natural number, also with non-digit text after it |
| JsArray.MapOutcome | src/cleaners.ts:98 | `map` throws exactly when some element's callback throws, and then throws the first such exception; otherwise it gives one result per element, in order |
| JsArray.MapOutcomeSplits | src/cleaners.ts:98 | a `map` that returned gave the first element's result followed by the results for the rest |
| JsArray.Compact | src/cleaners.ts:98 | `.filter(Boolean)` over cleaner results is no longer than its input; every record it returns was in the input, and every record in the input is among those it returns (order and duplicates are stated by `CompactAppend` and `CompactSingle`) |
| JsArray.CompactSingle | src/cleaners.ts:98 | `.filter(Boolean)` keeps a single record and drops a single null |
| JsArray.CompactAppend | src/cleaners.ts:98 | filtering a concatenation is the concatenation of the filtered parts, so records keep their order and their duplicates |
| JsArray.TruthyOnly | src/cleaners.ts:98 | the truthy elements of a list are no more than the list; they are exactly its truthy members |
| JsArray.TruthyOnlyKeepsAllTruthy | src/cleaners.ts:98 | a list whose elements are all truthy loses nothing and keeps its order |
| JsArray.CleanList | src/cleaners.ts:97-98 | `Array.isArray(v) ? v.map(f).filter(Boolean) : []` gives `[]` for a non-array, throws exactly when some element's cleaner throws, and otherwise returns only records that some element was cleaned into (the exact contents are stated by `CleanListSpec`) |
| JsArray.CompactOfMapKeepsTruthy | src/cleaners.ts:96-109 | mapping a cleaner that returns null exactly on falsy inputs, then dropping nulls, gives exactly one cleaned record per truthy input, in input order |
| JsArray.CleanListSpec | src/cleaners.ts:96-109 | a list cleaner gives `[]` for a non-array; on an array it throws exactly when some element's cleaner throws, with the exception of the first such element, and otherwise gives the cleaned truthy elements in order, at most as many as the input |
| Cleaners.DecimalCountIsKept | src/cleaners.ts:17-19 | a count string holding the decimal numeral of n, `"0"` included, becomes the number n and nothing else; an empty count string gives no count |
| Cleaners.Count | src/cleaners.ts:17 | `src ? parseInt(src) : undefined` throws exactly when `src` cannot be converted to a string; otherwise the count is present exactly when `src` is truthy and is then what `parseInt` gives |
| Cleaners.Counts | src/cleaners.ts:17-19 | three counts parsed in turn throw exactly when one of them cannot be converted to a string; otherwise each is present exactly when its source is truthy, and is then parsed |
| Cleaners.ConversionThrowsIsTruthy | src/cleaners.ts:17 | a count whose conversion throws is truthy, so the truthiness test does not shield `parseInt` from it |
| Cleaners.VideoLiteral | src/cleaners.ts:9-21 | the video object literal reads every plain field from its API path and keeps the computed description, counts and tags |
| Cleaners.CleanVideo | src/cleaners.ts:4-22 | null exactly for a falsy video; throws exactly when the description is present but not a string, a count cannot be converted to a string, or the tags are present but neither array nor string, with the error of the first of these in field order; otherwise every field is read from its API path, the description is truncated to 300, the three counts are present exactly when truthy, and the tags are capped at 5 in order |
| Cleaners.CleanSearchResult | src/cleaners.ts:24-35 | null exactly for a falsy item; throws exactly on a present non-string description; the id is `id.videoId` when truthy and the whole `id` otherwise; the description is truncated to 200 |
| Cleaners.SearchIdShapes | src/cleaners.ts:28 | a hit whose id record has a non-empty `videoId` string gets that string as id; a hit whose id is a string keeps it |
| Cleaners.CleanChannel | src/cleaners.ts:37-52 | null exactly for a falsy channel; throws exactly on a present non-string description (checked first) or a count that cannot be converted to a string; fields read from their API paths, description truncated to 300, subscriber/video/view counts present exactly when truthy |
| Cleaners.CleanPlaylist | src/cleaners.ts:54-67 | null exactly for a falsy playlist; throws exactly on a present non-string description; fields read from their API paths, description truncated to 200, item count copied |
| Cleaners.CleanPlaylistItem | src/cleaners.ts:69-79 | never throws; null exactly for a falsy item; the id is `snippet.resourceId.videoId` read optionally, other fields from the snippet |
| Cleaners.CleanSegment | src/cleaners.ts:88-92 | throws exactly for a null or undefined segment; otherwise text and duration are copied and the start is `offset` unless that is null/undefined, else `start` |
| Cleaners.ZeroOffsetIsKept | src/cleaners.ts:90 | an offset of 0 is kept as the start time, where logical OR would have fallen through to `start` |
| Cleaners.CleanTranscript | src/cleaners.ts:81-94 | null exactly for a falsy result; segments come from a truthy `transcript` field, else from the value itself; a non-array gives `{videoId, segments: []}` with no language key; an array gives one segment per element in order, and throws exactly when an element is null or undefined |
| Cleaners.WrappedAndBareAgree | src/cleaners.ts:83 | a bare array of segments and a record wrapping that array in `transcript` give the same segments and throw alike |
| Cleaners.CleanersNullExactlyOnFalsy | src/cleaners.ts:5 | the video, search-hit and playlist-item cleaners return null exactly for falsy inputs, as the list cleaners need |
| Cleaners.CleanVideoList | src/cleaners.ts:96-99 | `[]` for a non-array; throws exactly when some video's cleaner throws, with the first such video's exception; otherwise the cleaned truthy videos in input order, no more than the input |
| Cleaners.CleanSearchResults | src/cleaners.ts:101-104 | `[]` for a non-array; throws exactly when some hit's cleaner throws, with the first such hit's exception; otherwise the cleaned truthy hits in input order, no more than the input |
| Cleaners.CleanPlaylistItems | src/cleaners.ts:106-109 | never throws; `[]` for a non-array; otherwise the cleaned truthy items in input order, no more than the input |

## Left out

- The MCP server in `src/server.ts` is left out. It covers tool registration, argument schemas, the stdio transport and the `JSON.stringify` wrapping of responses, which are protocol and I/O plumbing.
- The transcript, video, channel and playlist services (`src/services/*.ts`) are not part of this model. They are the remote YouTube API and transcript clients, which are network I/O, and the transcript search, context windows and timestamp formatting in `src/services/transcript.ts` (imported at `src/server.ts:5`), which sit outside the cleaning layer that `src/cleaners.ts` forms.
- The tests under `src/__tests__/` are left out. They assert facts about live YouTube data, not about local logic.
- JsNumber.ParseInt: leading white space, a sign and the `0x` radix prefix of strings are not modelled. Numbers whose `String` form uses exponent notation are not modelled either, and the numeral of a non-integer is assumed to start with its integer digits. Integers are exact, with no loss above 2^53.
- JsValue.Json: numbers are exact reals, so there is no floating point and no negative zero. Strings are sequences of Unicode scalar values, not of UTF-16 code units. So the lengths that `substring` and `slice` count agree with JavaScript's only for text without characters outside the Basic Multilingual Plane, and a cut through a surrogate pair has no counterpart in the model.
- JsValue.Get: on anything but an object, a property read gives undefined. This is exact for the plain field names the cleaners read, but not for indices, `length` or prototype members.
- Cleaned records are Dafny datatypes, so the key order of the JavaScript object literals is not modelled. A field holding `undefined` is kept as `Undefined`, which `JSON.stringify` would omit. Only `Transcript.language` separates "key absent" (`None`) from "key holding undefined" (`Some(Undefined)`), because `cleanTranscript` builds records of both shapes.
- JsArray.Compact: `.filter(Boolean)` is modelled as keeping the non-null results. This is exact because every cleaner returns either `null` or an object literal, which is truthy.
