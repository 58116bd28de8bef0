/**
 * The request `getSongUrl` hands to the JSONP transport: the fixed endpoint
 * and the query-parameter map. Numbers of the literal are written as the
 * decimal text they are sent as.
 */
module SongUrl {

  import opened Wrappers

  /** The playback-URL endpoint of the music service. */
  const SONG_URL_ENDPOINT := "https://c.y.qq.com/base/fcgi-bin/fcg_music_express_mobile3.fcg"

  /**
   * The shared parameters: declared in the song module but never assigned,
   * so they are `undefined`.
   */
  const COMMON_PARAMS: Option<map<string, string>> := None

  /** The literal entries that do not depend on the song. */
  const FIXED_PARAMS: map<string, string> := map[
    "g_tk" := "5381",
    "format" := "json",
    "outCharset" := "utf-8",
    "notice" := "0",
    "loginUin" := "0",
    "hostUin" := "0",
    "inCharset" := "utf8",
    "platform" := "yqq",
    "needNewCode" := "0",
    "cid" := "205361747",
    "uin" := "0",
    "guid" := "6935341414",
    "jsonpCallback" := "MusicJsonCallback016674538646550108"
  ]

  /** What the JSONP transport is called with. */
  datatype JsonpRequest = JsonpRequest(url: string, data: map<string, string>)

  /** The audio file name of a song; the song's mid sits between a fixed prefix and suffix. */
  function Filename(songmid: string): (f: string)
    ensures |f| == |songmid| + 8
    ensures f[..4] == "C400" && f[|f| - 4..] == ".m4a"
    ensures f[4..|f| - 4] == songmid
  {
    "C400" + songmid + ".m4a"
  }

  /**
   * `Object.assign({}, common, own)`: an `undefined` source is skipped, and
   * on a key both sources hold the later one wins.
   */
  function Assign(common: Option<map<string, string>>, own: map<string, string>): (m: map<string, string>)
    ensures common.None? ==> m == own
    ensures common.Some? ==> m.Keys == common.value.Keys + own.Keys
    ensures forall k :: k in own ==> k in m && m[k] == own[k]
    ensures forall k :: k in m && k !in own ==> common.Some? && k in common.value && m[k] == common.value[k]
  {
    match common
    case None => own
    case Some(c) => c + own
  }

  /** The parameter map of `getSongUrl(songmid)`. */
  function SongUrlParams(songmid: string): (m: map<string, string>)
    ensures m.Keys == FIXED_PARAMS.Keys + {"songmid", "filename"}
    ensures m["songmid"] == songmid
    ensures m["filename"] == "C400" + songmid + ".m4a"
    ensures forall k :: k in FIXED_PARAMS ==> m[k] == FIXED_PARAMS[k]
  {
    Assign(COMMON_PARAMS, FIXED_PARAMS["songmid" := songmid]["filename" := Filename(songmid)])
  }

  /** The request of `getSongUrl(songmid)`; the transport options are `undefined` too. */
  function SongUrlRequest(songmid: string): (r: JsonpRequest)
    ensures r.url == SONG_URL_ENDPOINT
    ensures r.data == SongUrlParams(songmid)
  {
    JsonpRequest(SONG_URL_ENDPOINT, SongUrlParams(songmid))
  }

  /** Different songs give different requests. */
  lemma SongUrlRequestInjective(a: string, b: string)
    requires SongUrlRequest(a) == SongUrlRequest(b)
    ensures a == b
  {
  }
}
