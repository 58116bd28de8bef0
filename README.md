# Song record model of vueMusic

A Dafny model of the song module of the vueMusic player (`src/common/js/song.js`).
The module holds four pieces:

- **`Song`**, the record of one track. Its constructor copies the fields of the
  object it is given. Its lyric memo, `getLyric`, answers from the cached lyric
  if there is one. Otherwise it asks the remote lyric service, keyed by the
  record's `mid`. On `ERR_OK` it base64-decodes the body into the slot and
  resolves with the decoded text. On any other code it rejects with `'no lyric'`.
- **`createSong`**, which maps one raw item of the service's replies onto a `Song`.
  The artists become one line, and the artwork URL is a fixed template around
  `albummid`. No playback URL is set.
- **`filterSinger`**, which joins the artist names with `/` in input order. It
  gives `""` for an absent list.
- **`getSongUrl`**, which builds the query-parameter map for the playback-URL
  endpoint.

Modules, one per piece plus two helpers:

- `SingerJoin` (`singer_join.dfy`): `filterSinger` as a loop proved against the
  function `SingerLine`. `Split` is its inverse, shown by the lemma `SplitJoin`.
- `LyricCache` (`lyric_cache.dfy`): the memo as a pure state machine on one slot.
  `GetLyricStep` is one call. `Run` is a series of calls, each settling before
  the next. The lemmas cover memoisation, failure and where the cached value
  comes from.
- `SongRecord` (`song_record.dfy`): the class `Song` with its fields. `GetLyric`
  may modify only the `lyric` field and is proved against `GetLyricStep`.
  `CreateSong` is specified by the function `SongFieldsOf`.
- `SongUrl` (`song_url.dfy`): the endpoint and the parameter map of `getSongUrl`.
- Helpers: `Wrappers` (an `Option` type for JavaScript's `undefined`) and
  `ApiConfig` (`ERR_OK`).

Inputs that the model takes as parameters or leaves open:

- The lyric slot is a `string`, and `""` means unset. The source tests the slot
  by truthiness, and the only falsy string is `""`.
- The remote lyric service is the parameter `remote: string -> Response` of
  `GetLyric`, given afresh to every call, because every call on an unset slot
  makes a new request whose reply may differ from the last. `Base64.decode` is the parameter `decode: string -> string`.
  `GetLyric` reports, in its out-parameter `requested`, the key it sent to the
  remote.
- `ERR_OK` comes from `api/config`, which is not part of this model. It is a
  constant declared without a value, so every property holds whatever status
  code the service uses for success.
- `commonParams` is declared in the song module but never assigned. So
  `Object.assign` receives `undefined` for it and skips it. `SongUrl.Assign`
  models that merge, and the map holds exactly the literal entries plus
  `songmid` and `filename`.

Two consequences of the code:

- Memoisation is a truthiness test. A success that decodes to `""` resolves with
  `""` but caches nothing, so the next call fetches again (`MemoAfterSuccess`,
  `EmptyLyricIsRefetched`).
- Every field of a `Song` is an ordinary assignable property. `GetLyric` is
  proved to change none of them except `lyric`.

## Model

| member | source | states |
|---|---|---|
| SingerJoin.Names | src/common/js/song.js:57-59 | the pushed names have one entry per artist, each that artist's `name`, in input order |
| SingerJoin.SingerLine | src/common/js/song.js:52-61 | an absent list gives `""`, an empty list gives `""`, a one-element list gives that name with no separator |
| SingerJoin.FilterSinger | src/common/js/song.js:52-61 | the push loop followed by `join('/')` returns exactly `SingerLine` of the input |
| SingerJoin.Join | src/common/js/song.js:60 | `join` of no parts is `""`; the text opens with the first part and closes with the last; `JoinSnoc`, `JoinLength` and `SplitJoin` fix the rest |
| SingerJoin.JoinSnoc | src/common/js/song.js:57-60 | pushing one more name onto a non-empty list adds the separator and that name at the end |
| SingerJoin.JoinLength | src/common/js/song.js:60 | the joined text is as long as all names together plus one separator between each two |
| SingerJoin.SplitJoin | src/common/js/song.js:60 | for parts without the separator, splitting the joined text gives back every part in order |
| SingerJoin.SingerLineKeepsNames | src/common/js/song.js:57-60 | for names without `/`, splitting the singer line at `/` gives back exactly the artist names in input order |
| SingerJoin.SingerLineSnoc | src/common/js/song.js:57-60 | adding an artist at the end of a non-empty list appends `/` and its name to the line |
| LyricCache.GetLyricStep | src/common/js/song.js:21-36 | the remote is asked iff the slot is unset; a filled slot resolves with itself, unchanged; the call resolves iff the slot is filled or the code is `ERR_OK`, and then with exactly the stored value; a fetched success stores the decoded body; a rejection is `'no lyric'` and leaves the slot as it was |
| LyricCache.Run | src/common/js/song.js:21-36 | a series of calls yields one outcome per call and at most one request per call |
| LyricCache.FilledSlotIsFinal | src/common/js/song.js:22-24 | once the slot is filled, every later call resolves with it, makes no request, and the slot never changes |
| LyricCache.FailuresLeaveSlotUnset | src/common/js/song.js:31-33 | replies that all fail leave the slot unset, each call asks again, and each rejects with `'no lyric'` |
| LyricCache.MemoAfterSuccess | src/common/js/song.js:22-30 | after a first success with a non-empty decoded lyric, the whole series makes exactly one request and every call resolves with that text |
| LyricCache.EmptyLyricIsRefetched | src/common/js/song.js:22-30 | a success whose body decodes to `""` resolves with `""`, and the next call asks the remote again (two requests) |
| LyricCache.SlotComesFromSuccess | src/common/js/song.js:28-29 | after any series of calls the slot holds its initial value or the decoded body of some `ERR_OK` reply |
| LyricCache.FilledSlotIgnoresReply | src/common/js/song.js:22-24 | a call on a filled slot is the same whatever the remote would reply |
| SongRecord.ImageUrl | src/common/js/song.js:47 | the artwork URL is the fixed prefix, then `albummid`, then the fixed `max_age` suffix |
| SongRecord.ImageUrlInjective | src/common/js/song.js:47 | different albums get different artwork URLs |
| SongRecord.SongFieldsOf | src/common/js/song.js:40-49 | `songid→id`, `songmid→mid`, `songname→name`, `albumname→album`, `interval→duration`, the singer line from `filterSinger`, the templated image, and `url` unset |
| SongRecord.Song.constructor | src/common/js/song.js:10-19 | every field is the given one and the lyric slot is unset |
| SongRecord.Song.GetLyric | src/common/js/song.js:21-36 | memo hit: the cached value, no request, no change; miss: one request keyed by `mid`; on `ERR_OK` the slot becomes the decoded body and the call resolves with it; otherwise it rejects with `'no lyric'` and the slot stays unset; no other field changes |
| SongRecord.CreateSong | src/common/js/song.js:39-50 | a fresh record whose fields are `SongFieldsOf` the raw item, with no lyric |
| SongRecord.GetLyricTwice | src/common/js/song.js:21-36 | two calls in a row, each with the reply its own request gets, are exactly two steps of `Run`: the outcomes and the final slot are `Run`'s; no field but `lyric` changes; on an unset slot the first call asks the remote for `mid`; on a filled slot neither call asks anything; after a non-empty first resolution the second resolves with the same text and asks nothing |
| SongUrl.Filename | src/common/js/song.js:80 | the filename is `C400`, the songmid, then `.m4a`, and the songmid can be read back from it |
| SongUrl.Assign | src/common/js/song.js:67 | an `undefined` source contributes nothing; on a shared key the later source wins; every key comes from one of the sources |
| SongUrl.SongUrlParams | src/common/js/song.js:67-83 | the keys are exactly the thirteen literals plus `songmid` and `filename`; `songmid` is the argument; `filename` is `C400` + songmid + `.m4a`; every other entry is its literal value |
| SongUrl.SongUrlRequest | src/common/js/song.js:64-85 | the transport is called with the fixed endpoint and that parameter map |
| SongUrl.SongUrlRequestInjective | src/common/js/song.js:79-85 | different songmids give different requests |

## Left out

- The JSONP call at the end of `getSongUrl` (`src/common/js/song.js:85`) is not modelled. It is a foreign transport, so the model stops at its arguments. Its `options` argument is the never-assigned `undefined`.
- The lyric request made by `getLyric` is not modelled as network I/O. It is the function parameter `remote`, and the model covers only its key and its reply. `api/song` is not part of this model.
- `Base64.decode` from the `js-base64` library is the uninterpreted parameter `decode`.
- Promise and event-loop behaviour is not modelled. Two calls issued before the first settles each see an unset slot, and both fetch. `Run` and `GetLyricTwice` cover only calls that settle one after another.
- A transport failure of the lyric request is not modelled. The source attaches no rejection handler, so that promise never settles, which is not sequential logic.
- `GetLyric` treats the reply as well-formed: `retcode` is a number and `lyric` is a string. JavaScript's `===` on other types is not modelled.
- `SongFieldsOf`: of the fields the raw item may lack, only `singer` is optional in the model. The others are assumed present. When they are missing, JavaScript copies `undefined`, and the image template writes the text `undefined`.
- `SingerLine`: every artist's `name` is assumed to be a string. JavaScript's `join` would write `undefined` or `null` names as empty text. A falsy `singer` other than `undefined` (`null`, `0`, `false`) gives `""` in the source, and the model represents all of them by `None`.
- `SongFieldsOf`, `SingerLine`: the source throws a `TypeError` on three inputs that the model's types rule out. These are an artist entry that is `null` or `undefined` (`s.name` at `src/common/js/song.js:58`), a truthy `singer` that is not an array (no `forEach` at line 57), and an absent raw item (`musicData.songid` at line 41). The model has no error path for them.
- Numbers are unbounded integers. JavaScript numbers are floating point, so a fractional `interval` or `songid` is not modelled.
- `SongUrlParams`: numeric literals are written as their decimal text. The insertion order of the keys, which the transport may use when building the query string, is not modelled.
- The router table (`src/router/index.js`) and the bootstrap (`src/main.js`) are not modelled. They are declarative configuration and wiring for the view framework, which is not part of this model.
