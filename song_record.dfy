/**
 * The `Song` record, its lyric memo `getLyric`, and `createSong`, which
 * builds a record from one raw item of the music service's search and list
 * replies.
 */
module SongRecord {

  import opened Wrappers
  import opened ApiConfig
  import opened SingerJoin
  import opened LyricCache

  /** The object the `Song` constructor destructures. */
  datatype SongFields = SongFields(
    id: int,
    mid: string,
    singer: string,
    name: string,
    album: string,
    duration: int,
    image: string,
    url: Option<string>)

  /** One raw item of the service's reply, with the fields `createSong` reads. */
  datatype MusicData = MusicData(
    songid: int,
    songmid: string,
    singer: Option<seq<Singer>>,
    songname: string,
    albumname: string,
    interval: int,
    albummid: string)

  /** The fixed template around `albummid` for the 300x300 album cover. */
  const IMAGE_PREFIX := "https://y.gtimg.cn/music/photo_new/T002R300x300M000"
  const IMAGE_SUFFIX := ".jpg?max_age=2592000"

  /** The artwork URL of an album. */
  function ImageUrl(albummid: string): (u: string)
    ensures |u| == |IMAGE_PREFIX| + |albummid| + |IMAGE_SUFFIX|
    ensures u[..|IMAGE_PREFIX|] == IMAGE_PREFIX
    ensures u[|IMAGE_PREFIX|..|u| - |IMAGE_SUFFIX|] == albummid
    ensures u[|u| - |IMAGE_SUFFIX|..] == IMAGE_SUFFIX
  {
    IMAGE_PREFIX + albummid + IMAGE_SUFFIX
  }

  /** Different albums get different artwork URLs. */
  lemma ImageUrlInjective(a: string, b: string)
    requires ImageUrl(a) == ImageUrl(b)
    ensures a == b
  {
  }

  /** The object literal `createSong` hands to the constructor. */
  function SongFieldsOf(m: MusicData): (f: SongFields)
    ensures f.id == m.songid && f.mid == m.songmid
    ensures f.name == m.songname && f.album == m.albumname
    ensures f.duration == m.interval
    ensures f.singer == SingerLine(m.singer)
    ensures f.image == IMAGE_PREFIX + m.albummid + IMAGE_SUFFIX
    ensures f.url == None
  {
    SongFields(m.songid, m.songmid, SingerLine(m.singer), m.songname,
               m.albumname, m.interval, ImageUrl(m.albummid), None)
  }

  class Song {
    var id: int
    var mid: string
    var singer: string
    var name: string
    var album: string
    var duration: int
    var image: string
    var url: Option<string>
    /** The decoded lyric; `""` while nothing has been cached. */
    var lyric: string

    /** Every field except the lyric slot. */
    function Fields(): (f: SongFields)
      reads this
    {
      SongFields(id, mid, singer, name, album, duration, image, url)
    }

    constructor (f: SongFields)
      ensures Fields() == f
      ensures lyric == ""
    {
      id := f.id;
      mid := f.mid;
      singer := f.singer;
      name := f.name;
      album := f.album;
      duration := f.duration;
      image := f.image;
      url := f.url;
      lyric := "";
    }

    /**
     * `getLyric`. `remote` is the lyric service keyed by `mid`; `decode` is
     * `Base64.decode`. `requested` is the key sent to the remote, if any.
     * Only the lyric slot can change.
     */
    method GetLyric(remote: string -> Response, decode: string -> string)
      returns (outcome: Outcome, requested: Option<string>)
      modifies this`lyric
      ensures Fields() == old(Fields())
      // memo hit: the cached value, no request, nothing changes
      ensures old(lyric) != "" ==>
        outcome == Resolved(old(lyric)) && requested == None && lyric == old(lyric)
      // memo miss: one request, keyed by the record's mid
      ensures old(lyric) == "" ==> requested == Some(mid)
      // success: store the decoded body and resolve with exactly that value
      ensures old(lyric) == "" && remote(mid).retcode == ERR_OK ==>
        lyric == decode(remote(mid).lyric) && outcome == Resolved(lyric)
      // failure: reject with 'no lyric', the slot stays unset
      ensures old(lyric) == "" && remote(mid).retcode != ERR_OK ==>
        outcome == Rejected(NO_LYRIC) && lyric == old(lyric)
      // the call is one step of the memo state machine
      ensures var c := GetLyricStep(old(lyric), remote(mid), decode);
        lyric == c.slot && outcome == c.outcome && (requested.Some? <==> c.requested)
    {
      if lyric != "" {
        return Resolved(lyric), None;
      }
      requested := Some(mid);
      var res := remote(mid);
      if res.retcode == ERR_OK {
        lyric := decode(res.lyric);
        outcome := Resolved(lyric);
      } else {
        outcome := Rejected(NO_LYRIC);
      }
    }
  }

  /** `createSong`: a new record with the mapped fields and no lyric yet. */
  method CreateSong(m: MusicData) returns (s: Song)
    ensures fresh(s)
    ensures s.Fields() == SongFieldsOf(m)
    ensures s.lyric == ""
  {
    s := new Song(SongFieldsOf(m));
  }

  /**
   * Two calls on one record, the first settling before the second. Each
   * call that finds the slot unset makes its own request, so `remote1` and
   * `remote2` are the service as the first and the second request find it.
   * The pair is two steps of `Run`; when the first call resolves with a
   * non-empty lyric the second answers from the memo and asks nothing.
   */
  method GetLyricTwice(s: Song, remote1: string -> Response, remote2: string -> Response,
                       decode: string -> string)
    returns (first: Outcome, second: Outcome, r1: Option<string>, r2: Option<string>)
    modifies s`lyric
    ensures s.Fields() == old(s.Fields())
    ensures var h := Run(old(s.lyric), [remote1(s.mid), remote2(s.mid)], decode);
      [first, second] == h.outcomes && s.lyric == h.slot
    ensures old(s.lyric) == "" ==> r1 == Some(s.mid)
    ensures old(s.lyric) != "" ==> first == Resolved(old(s.lyric)) && r1 == None && r2 == None
    ensures first.Resolved? && first.text != "" ==> second == first && r2 == None
  {
    ghost var replies := [remote1(s.mid), remote2(s.mid)];
    first, r1 := s.GetLyric(remote1, decode);
    ghost var s1 := s.lyric;
    second, r2 := s.GetLyric(remote2, decode);
    assert replies[1..] == [remote2(s.mid)];
    assert replies[1..][1..] == [];
    assert Run(s1, replies[1..], decode).slot == s.lyric;
  }
}
