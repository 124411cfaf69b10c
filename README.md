# URLEmbeddedView core, modelled in Dafny

URLEmbeddedView shows link previews. Its core fetches Open Graph metadata and
preview images for a URL string and caches both. This project models three
parts of that core:

- **`OpenGraph.Data`** (`opengraph_data.dfy`, module `OpenGraphData`). This is
  the immutable metadata value and its four constructors: from a stored
  `OGData` record, from a YouTube oEmbed response, the empty value, and the
  fold over a page head's `(property, content)` pairs. Each pair is classified
  by a fixed-precedence substring test, and the last pair for a field wins.
- **`OGImageCacheManager`** (`image_cache.dfy`, module `ImageCache`). This is
  the two-tier image cache. The class keeps a memory map from reference to
  decoded image, and the directories and files of its disk tier. Its methods
  are proved against functions on a `Tiers` value. The lemmas about those
  functions state what the cache promises: a store followed by a lookup, what
  a memory clear keeps, what a full clear forgets, and the shard layout
  `root/xy/digest` under 256 directories `root/00` … `root/ff`.
- **`OGDataProvider`** (`data_provider.dfy`, module `DataProvider`). This is
  the fetch decision procedure over a mutable `OGData` record. A record that
  has been filled in is delivered at once. A fresh record ends the call. A
  stale or new record gets its `sourceUrl` stamped, its URL validated and
  routed (YouTube embed or HTML page), and the session's answer handled.
  Deliveries, sends and saves go, in order, into an event log on the provider.
  `Fetch` is the function that states the log's contents and the record's
  attributes afterwards. The methods are proved against it.

`wrappers.dfy` holds `Option`. `text.dfy` holds Foundation's `contains` and
the newline replacement, with their lemmas.

Foreign collaborators are parameters, not definitions. `URL(string:)`,
`URL.host`, `YoutubeEmbedRequest(url:)`, `OGData.setValue`, HTML unescaping,
`String.md5()` and `UIImage(contentsOfFile:)` are passed in as functions,
bundled in `DataProvider.Env` or held as `const` fields of the cache. Every
property is proved for all such functions. The network session is an input:
`SessionResult` is either success with a payload or failure, and either one
carries the task's `isExpired` flag. Time and `updateInterval` are integers,
and `fabs` is `Abs`.

On a failed refresh the code (`OGDataProvider.swift:50-54`) delivers the
record's data with a nil error, or nothing when the task has expired. It does
so also for a record that was never filled in. The URL parsed before the
request was sent, so such a caller gets a value whose `sourceUrl` is set and
whose other fields are absent (when `URL(string: "")` is nil), and no error. `FailureNeverDeliversError` states this.

## Model

| member | source | states |
|---|---|---|
| `Text.Contains` | URLEmbeddedView/Core/Entity/OpenGraph.Data.swift:72-83 | `s.contains(sub)`; a pattern longer than the string is never contained in it |
| `Text.ContainsIffOccurs` | URLEmbeddedView/Core/Entity/OpenGraph.Data.swift:72-83 | `contains` holds exactly when the pattern occurs at some index of the string |
| `Text.ReplaceNewlines` | URLEmbeddedView/Core/Entity/OpenGraph.Data.swift:148 | the result has the input's length; each newline becomes a space and every other character is kept |
| `Text.ReplaceNewlinesHasNoNewline` | URLEmbeddedView/Core/Entity/OpenGraph.Data.swift:148 | the replaced text holds no newline |
| `Text.ReplaceNewlinesIdentity` | URLEmbeddedView/Core/Entity/OpenGraph.Data.swift:148 | a text without newlines is unchanged |
| `OpenGraphData.NonEmpty` | URLEmbeddedView/Core/Entity/OpenGraph.Data.swift:29-32 | absent exactly for the empty string, otherwise the string itself |
| `OpenGraphData.FromRecord` | URLEmbeddedView/Core/Entity/OpenGraph.Data.swift:26-36 | description, title, type and site name are absent exactly when stored empty and are kept verbatim otherwise; the three URL fields are the parse results of the stored strings |
| `OpenGraphData.FromYoutube` | URLEmbeddedView/Core/Entity/OpenGraph.Data.swift:38-47 | description is absent; `sourceUrl` and `url` are both the parse of the source reference; title, type and site name are copied from the response; the image URL is the parse of the thumbnail URL |
| `OpenGraphData.Empty` | URLEmbeddedView/Core/Entity/OpenGraph.Data.swift:49-57 | every field is absent |
| `OpenGraphData.FreshRecordIsEmpty` | URLEmbeddedView/Core/Entity/OpenGraph.Data.swift:26-36 | a record with all attributes empty reads as the empty value when "" does not parse as a URL |
| `OpenGraphData.Classify` | URLEmbeddedView/Core/Entity/OpenGraph.Data.swift:69-87 | a pair classified as `p` matches `p`'s condition and matches no condition earlier in the order description, image, site_name, title, type, url; an unclassified pair matches none |
| `OpenGraphData.ImageNeedsHttp` | URLEmbeddedView/Core/Entity/OpenGraph.Data.swift:74 | an `og:image` pair without "http" in its content is not an image and falls through to the later checks (to title when only that one matches) |
| `OpenGraphData.TitleClassified` | URLEmbeddedView/Core/Entity/OpenGraph.Data.swift:78-79 | a pair with property "og:title" is classified as a title |
| `OpenGraphData.Start` | URLEmbeddedView/Core/Entity/OpenGraph.Data.swift:90-98 | only `sourceUrl` is set, to the parse of the reference; the six classified fields are absent |
| `OpenGraphData.Step` | URLEmbeddedView/Core/Entity/OpenGraph.Data.swift:102-154 | an unclassified pair leaves the value unchanged; a classified pair writes its value into exactly the field it was classified to and copies every other field; `sourceUrl` never changes |
| `OpenGraphData.Reduce` | URLEmbeddedView/Core/Entity/OpenGraph.Data.swift:101-155 | the fold keeps the start value's `sourceUrl` |
| `OpenGraphData.FromHtml` | URLEmbeddedView/Core/Entity/OpenGraph.Data.swift:100-163 | `sourceUrl` is the parse of the reference; an empty list yields exactly the start value |
| `OpenGraphData.ReduceSnoc` | URLEmbeddedView/Core/Entity/OpenGraph.Data.swift:101-155 | appending a pair to the list applies one more step to the folded value |
| `OpenGraphData.LastOf` | URLEmbeddedView/Core/Entity/OpenGraph.Data.swift:101-155 | the index found is that of a pair classified to the field with no later such pair; no index means no pair is classified to it |
| `OpenGraphData.LastWins` | URLEmbeddedView/Core/Entity/OpenGraph.Data.swift:101-155 | each field of the fold's result is the value written by the last pair classified to it, or the start value's field if no pair was |
| `OpenGraphData.FromHtmlLastWins` | URLEmbeddedView/Core/Entity/OpenGraph.Data.swift:100-163 | each of the six fields of a page's value comes from the last pair classified to it, or is absent |
| `OpenGraphData.DescriptionHasNoNewline` | URLEmbeddedView/Core/Entity/OpenGraph.Data.swift:146-153 | a page's description never holds a newline |
| `OpenGraphData.TitleUnescapeFailure` | URLEmbeddedView/Core/Entity/OpenGraph.Data.swift:122-129 | when unescaping the last title pair fails, the title is the empty string, not absent |
| `OpenGraphData.NoHttpNoImage` | URLEmbeddedView/Core/Entity/OpenGraph.Data.swift:74 | when no `og:image` pair's content contains "http", the page has no image URL |
| `OpenGraphData.DuplicateTitleLastWins` | URLEmbeddedView/Core/Entity/OpenGraph.Data.swift:101-155 | two `og:title` pairs give the start value with the second pair's unescaped title |
| `ImageCache.ShardPath` | URLEmbeddedView/Core/Cache/Image/OGImageCacheManager.swift:72 | the name is the root, a slash and two hex digits |
| `ImageCache.ShardPathInjective` | URLEmbeddedView/Core/Cache/Image/OGImageCacheManager.swift:72 | distinct loop indices name distinct shard directories |
| `ImageCache.HexDigit` | URLEmbeddedView/Core/Cache/Image/OGImageCacheManager.swift:72 | `%x` of a value below 16 is a lower-case hex digit; `HexValue` inverts it |
| `ImageCache.HexValueOfDigit` | URLEmbeddedView/Core/Cache/Image/OGImageCacheManager.swift:72 | the value of the `%x` digit of any value below 16 is that value |
| `ImageCache.HexValue` | URLEmbeddedView/Core/Cache/Image/OGImageCacheManager.swift:72 | the value below 16 whose `%x` digit is the given character |
| `ImageCache.AllShardsExactly` | URLEmbeddedView/Core/Cache/Image/OGImageCacheManager.swift:69-83 | the shard set has 256 members, and they are exactly the names `root/%x%x` for i and j below 16 |
| `ImageCache.PathFor` | URLEmbeddedView/Core/Cache/Image/OGImageCacheManager.swift:86-91 | the path lies below the root; for a digest of two or more characters it is `root/` + the first two characters + `/` followed by the whole digest |
| `ImageCache.PathForShape` | URLEmbeddedView/Core/Cache/Image/OGImageCacheManager.swift:86-91 | the path is `root/` for a digest shorter than 2 characters and `root/d[0..2]/d` otherwise, and it lies below the root |
| `ImageCache.PathInShard` | URLEmbeddedView/Core/Cache/Image/OGImageCacheManager.swift:86-91 | a hex digest's file lies in one of the 256 created shard directories |
| `ImageCache.PathInjective` | URLEmbeddedView/Core/Cache/Image/OGImageCacheManager.swift:86-91 | distinct digests of two or more characters get distinct file paths |
| `ImageCache.Lookup` | URLEmbeddedView/Core/Cache/Image/OGImageCacheManager.swift:93-102 | a memory hit is returned with nothing changed; otherwise a decodable file is returned and promoted into memory under the reference; a miss in both tiers returns nothing and changes nothing; the disk is never changed |
| `ImageCache.Store` | URLEmbeddedView/Core/Cache/Image/OGImageCacheManager.swift:104-107 | memory maps the reference to the image and the disk maps its path to the bytes; all other entries and the directories are kept |
| `ImageCache.ClearMemory` | URLEmbeddedView/Core/Cache/Image/OGImageCacheManager.swift:110-112 | memory is empty and the disk untouched |
| `ImageCache.CreateDirectories` | URLEmbeddedView/Core/Cache/Image/OGImageCacheManager.swift:55-58 | the root and all 256 shard directories are added; files are untouched |
| `ImageCache.RemoveTree` | URLEmbeddedView/Core/Cache/Image/OGImageCacheManager.swift:121 | exactly the directories and files at or below the root are removed |
| `ImageCache.RootExists` | URLEmbeddedView/Core/Cache/Image/OGImageCacheManager.swift:116 | `fileExists(atPath: root)`: the root is a directory or a file |
| `ImageCache.ClearAll` | URLEmbeddedView/Core/Cache/Image/OGImageCacheManager.swift:114-124 | memory is empty; the directories are those the removal left (all of them when the root did not exist) plus the root and every shard; files outside the root are kept with their contents; when the root existed no file remains below it, otherwise no file changes |
| `ImageCache.StoreThenLookup` | URLEmbeddedView/Core/Cache/Image/OGImageCacheManager.swift:104-107 | after a store the reference is a memory hit with the stored image |
| `ImageCache.StoreSurvivesMemoryClear` | URLEmbeddedView/Core/Cache/Image/OGImageCacheManager.swift:110-112 | after store and memory clear, a lookup yields the decoding of the stored bytes and promotes it into memory |
| `ImageCache.ClearAllForgets` | URLEmbeddedView/Core/Cache/Image/OGImageCacheManager.swift:114-124 | on a file system where files below the root need the root, a lookup after a full clear finds nothing in either tier |
| `ImageCache.OGImageCacheManager.constructor` | URLEmbeddedView/Core/Cache/Image/OGImageCacheManager.swift:40-44 | empty memory over the given disk, with the directory tree created; the manager is valid (its root exists) |
| `ImageCache.OGImageCacheManager.DidReceiveMemoryWarning` | URLEmbeddedView/Core/Cache/Image/OGImageCacheManager.swift:50-52 | the effect of a memory warning is a memory clear; validity is kept |
| `ImageCache.OGImageCacheManager.CreateDirectoriesIfNeeded` | URLEmbeddedView/Core/Cache/Image/OGImageCacheManager.swift:55-58 | the root and all shard directories are added to the existing directories |
| `ImageCache.OGImageCacheManager.CreateRootDirectoryIfNeeded` | URLEmbeddedView/Core/Cache/Image/OGImageCacheManager.swift:60-67 | the root directory is added |
| `ImageCache.OGImageCacheManager.CreateSubDirectoriesIfNeeded` | URLEmbeddedView/Core/Cache/Image/OGImageCacheManager.swift:69-83 | after the nested loops the directories are the old ones plus exactly the 256 shard directories |
| `ImageCache.OGImageCacheManager.CachedImage` | URLEmbeddedView/Core/Cache/Image/OGImageCacheManager.swift:93-102 | result and new state are those of `Lookup` on the old state; validity is kept |
| `ImageCache.OGImageCacheManager.StoreImage` | URLEmbeddedView/Core/Cache/Image/OGImageCacheManager.swift:104-107 | the new state is `Store` of the old state; validity is kept |
| `ImageCache.OGImageCacheManager.ClearMemoryCache` | URLEmbeddedView/Core/Cache/Image/OGImageCacheManager.swift:110-112 | the new state is `ClearMemory` of the old state; validity is kept |
| `ImageCache.OGImageCacheManager.ClearAllCache` | URLEmbeddedView/Core/Cache/Image/OGImageCacheManager.swift:114-124 | the new state is `ClearAll` of the old state and the manager is valid; when it was valid before, every later lookup misses in both tiers |
| `DataProvider.QuotedError` | URLEmbeddedView/Core/Cache/Data/OGDataProvider.swift:46 | code 9999; the domain is the message, then the reference in double quotes |
| `DataProvider.ErrorsIdentifyReference` | URLEmbeddedView/Core/Cache/Data/OGDataProvider.swift:84 | the malformed-URL error and the no-match error each determine their reference, and never equal each other |
| `DataProvider.IsPopulated` | URLEmbeddedView/Core/Cache/Data/OGDataProvider.swift:38 | a stamped record has a non-empty reference; a newly inserted record is not populated |
| `DataProvider.IsFresh` | URLEmbeddedView/Core/Cache/Data/OGDataProvider.swift:40 | the update date lies strictly within `updateInterval` of now, before or after |
| `DataProvider.IsYoutube` | URLEmbeddedView/Core/Cache/Data/OGDataProvider.swift:55 | the URL has a host and "youtube.com" occurs in it |
| `DataProvider.Route` | URLEmbeddedView/Core/Cache/Data/OGDataProvider.swift:55-76 | a YouTube host gets an embed request, or no request when one cannot be built (never the HTML request); any other host gets the HTML request |
| `DataProvider.Respond` | URLEmbeddedView/Core/Cache/Data/OGDataProvider.swift:50-75 | the success and failure handlers send no further request |
| `DataProvider.Refresh` | URLEmbeddedView/Core/Cache/Data/OGDataProvider.swift:44-76 | a reference that cannot be parsed or routed yields only the malformed-URL error on the stamped record; otherwise the routed request is sent first and no other request is sent, and the record is the stamped one unless a success answer hands it to `setValue` |
| `DataProvider.Fetch` | URLEmbeddedView/Core/Cache/Data/OGDataProvider.swift:34-79 | a populated record is delivered first with a nil error; a populated fresh record is the only event and the record is unchanged; on the refresh path a malformed URL ends with the stamped record's data and the malformed-URL error; no request is sent unless a refresh is due, the URL parses and a request can be built |
| `DataProvider.CacheAnswersAlone` | URLEmbeddedView/Core/Cache/Data/OGDataProvider.swift:38-42 | the cached delivery is the only event exactly when the record is populated and fresh |
| `DataProvider.StampSticksOnMalformedUrl` | URLEmbeddedView/Core/Cache/Data/OGDataProvider.swift:44-48 | with a malformed URL the record keeps the stamped `sourceUrl`, and nothing is sent or saved |
| `DataProvider.YoutubeNoFallback` | URLEmbeddedView/Core/Cache/Data/OGDataProvider.swift:55-59 | when a YouTube embed request cannot be built nothing is sent, and the call ends with the malformed-URL error |
| `DataProvider.SuccessSavesThenDelivers` | URLEmbeddedView/Core/Cache/Data/OGDataProvider.swift:60-75 | on a success that answers the routed request with its own kind of response, the events are the cached delivery (if any), the send, the save of the updated record, then its delivery unless expired; the record is the updated one |
| `DataProvider.FailureNeverDeliversError` | URLEmbeddedView/Core/Cache/Data/OGDataProvider.swift:50-54 | on failure the stamped record is re-delivered with a nil error unless expired, nothing otherwise; no delivery carries an error |
| `DataProvider.NewRecordIsRefreshed` | URLEmbeddedView/Core/Cache/Data/OGDataProvider.swift:36-47 | a new record is never answered from the cache: the first event is the send or the malformed-URL error; the record keeps the stamped reference unless a success answer hands it to `setValue` |
| `DataProvider.Without` | URLEmbeddedView/Core/Cache/Data/OGDataProvider.swift:91-93 | the store keeps exactly the entries that do not hold the deleted record |
| `DataProvider.OGData.constructor` | URLEmbeddedView/Core/Cache/Data/OGDataProvider.swift:36 | a newly inserted record has every attribute empty and update date 0 |
| `DataProvider.OGData.Assign` | URLEmbeddedView/Core/Cache/Data/OGDataProvider.swift:62 | the record takes the attributes `setValue` computes |
| `DataProvider.Task.constructor` | URLEmbeddedView/Core/Cache/Data/OGDataProvider.swift:35 | a new task is running |
| `DataProvider.Task.Expire` | URLEmbeddedView/Core/Cache/Data/OGDataProvider.swift:96 | a running task expires with the given flag; an expired task is unchanged |
| `DataProvider.OGDataProvider.constructor` | URLEmbeddedView/Core/Cache/Data/OGDataProvider.swift:19-26 | starts with the given interval and store and an empty log |
| `DataProvider.OGDataProvider.FetchOrInsert` | URLEmbeddedView/Core/Cache/Data/OGDataProvider.swift:36 | the stored record for the reference, or a fresh empty one inserted under it |
| `DataProvider.OGDataProvider.FetchOGData` | URLEmbeddedView/Core/Cache/Data/OGDataProvider.swift:34-79 | returns a fresh running task; the log grows by `Fetch`'s events on the record's old attributes, and the record holds `Fetch`'s record |
| `DataProvider.OGDataProvider.Handle` | URLEmbeddedView/Core/Cache/Data/OGDataProvider.swift:37-76 | the log and record change exactly as `Fetch` says |
| `DataProvider.OGDataProvider.RefreshRecord` | URLEmbeddedView/Core/Cache/Data/OGDataProvider.swift:44-76 | the log and record change exactly as `Refresh` says |
| `DataProvider.OGDataProvider.HandleResponse` | URLEmbeddedView/Core/Cache/Data/OGDataProvider.swift:50-75 | the log and record change exactly as `Respond` says |
| `DataProvider.OGDataProvider.DeleteOGData` | URLEmbeddedView/Core/Cache/Data/OGDataProvider.swift:81-89 | with no record for the reference: the no-match error and an unchanged store; otherwise the record delete and that record's outcome |
| `DataProvider.OGDataProvider.DeleteRecord` | URLEmbeddedView/Core/Cache/Data/OGDataProvider.swift:91-93 | the store no longer holds the record |
| `DataProvider.OGDataProvider.CancelLoading` | URLEmbeddedView/Core/Cache/Data/OGDataProvider.swift:95-97 | the task is expired with the given flag unless it already was |

## Left out

- Foreign calls are parameters. These are `URL(string:)`, `URL.host`, HTML unescaping, `YoutubeEmbedRequest(url:)`, `OGData.setValue`, `String.md5()` and `UIImage(contentsOfFile:)`. Two lemmas add a hypothesis about them: `FreshRecordIsEmpty` requires that `URL(string: "")` is nil, and `PathInShard` requires a digest that starts with two lower-case hex characters. Every other property holds for all such functions. The implementations behind `OGData` (Core Data), `OGSession`, `OGDataCacheManager` and `Task.expire` are not modelled. `OGData` and `Task` appear only as the state the provider reads and changes.
- `OGData` is modelled by its attributes alone, and `save()` is an event in the log. Core Data's `managedObjectContext.perform` scheduling is not modelled, and neither is a nil context, in which case the handlers would do nothing.
- The network send and all asynchrony. One call takes the session's one answer as input. Concurrent fetches of one reference and their last-save-wins race are not modelled.
- `Fetch` and `FetchOGData` accept any payload for any request, so a page request answered with a YouTube response is admitted. Swift's types rule that out; every property above holds for all payloads, and `SuccessSavesThenDelivers` requires `Answers`.
- `Task.expire` lives outside the modelled files. `Task.Expire` models it as an idempotent state change, and the session's `isExpired` flag is an input that is not tied to the task's state.
- An optional `completion` that is nil. The model always records the delivery.
- `DeleteOGData`, `DeleteRecord`: the record delete of `OGDataCacheManager` is modelled as removing the record's entries from the store. Its completion call is not modelled.
- The Objective-C wrapper `fetchOGDataWithURLString` (OGDataProvider.swift:29-31), the Objective-C bridging of `OpenGraph.Data` (OpenGraph.Data.swift:166-195) and the `shared` singletons. These are type or access glue. `updateInterval` is a plain field instead of a forward to `OGDataCacheManager`.
- `NSCache`'s `countLimit = 30` and its eviction. The memory tier is an unbounded map, so no eviction and no least-recently-used behaviour is claimed.
- The memory-warning observer's registration and removal. Only its effect, `DidReceiveMemoryWarning`, is modelled.
- File-system failures. `createDirectory`, `data.write` and `removeItem` always succeed in the model, and the source's ignored `catch` branches are not modelled. Writing to `root/` for a digest shorter than two characters, which would fail on a real file system, records a file entry there.
- `fileExists(atPath:isDirectory:)` is modelled as membership in the directory set. A file that occupies a directory's name is not modelled.
- `ImageCache.ClearAllForgets` assumes a file system where a file below the cache root exists only while the root does. A valid manager, whose root exists, meets this, so `ClearAllCache` promises the misses without the assumption.
- Time is an integer. `TimeInterval`, `Date` and `fabs` on floating point are not modelled.
- Strings are sequences of characters. `contains` and the newline replacement are modelled per character, without Swift's grapheme clusters (a `"\r\n"` pair is one `Character` in Swift). `Contains(s, "")` holds, and the source never asks it.
- The UIKit view and its presenter (`URLImageView.swift`, `URLImageViewPresenter.swift`). They hold no core logic.
