/**
 * `filterSinger`: turns the artist list of a raw song record into one
 * display string, the names in input order separated by `/`.
 */
module SingerJoin {

  import opened Wrappers

  /** One artist descriptor of the raw record; only its `name` is read. */
  datatype Singer = Singer(name: string)

  /** The separator `filterSinger` passes to `join`. */
  const SEPARATOR: char := '/'

  /** The names of the artists, in input order. */
  function Names(singers: seq<Singer>): (r: seq<string>)
    ensures |r| == |singers|
    ensures forall i :: 0 <= i < |singers| ==> r[i] == singers[i].name
  {
    seq(|singers|, i requires 0 <= i < |singers| => singers[i].name)
  }

  /**
   * `Array.prototype.join`: the parts with `sep` between each two
   * neighbours; no separator before the first or after the last.
   */
  function Join(parts: seq<string>, sep: string): (r: string)
    ensures |parts| == 0 ==> r == ""
    // the text opens with the first part and closes with the last
    ensures |parts| >= 1 ==> |parts[0]| <= |r| && r[..|parts[0]|] == parts[0]
    ensures |parts| >= 1 ==> |parts[|parts| - 1]| <= |r| && r[|r| - |parts[|parts| - 1]|..] == parts[|parts| - 1]
  {
    if |parts| == 0 then ""
    else if |parts| == 1 then parts[0]
    else parts[0] + sep + Join(parts[1..], sep)
  }

  /**
   * The inverse of `Join` for a one-character separator: the pieces of
   * `s` between the occurrences of `sep` (`"".split("/")` is `[""]`).
   */
  function Split(s: string, sep: char): (r: seq<string>)
    ensures |r| >= 1
    decreases |s|
  {
    if s == [] then [""]
    else
      var rest := Split(s[1..], sep);
      if s[0] == sep then [""] + rest
      else [[s[0]] + rest[0]] + rest[1..]
  }

  /** What `filterSinger` returns for the record's `singer` field. */
  function SingerLine(singer: Option<seq<Singer>>): (r: string)
    ensures singer.None? ==> r == ""
    ensures singer.Some? && |singer.value| == 0 ==> r == ""
    ensures singer.Some? && |singer.value| == 1 ==> r == singer.value[0].name
  {
    match singer
    case None => ""
    case Some(list) => Join(Names(list), [SEPARATOR])
  }

  /**
   * `filterSinger` as the source runs it: an absent list gives `""`;
   * otherwise the names are pushed one by one and then joined.
   */
  method FilterSinger(singer: Option<seq<Singer>>) returns (r: string)
    ensures r == SingerLine(singer)
  {
    var ret: seq<string> := [];
    if singer.None? {
      return "";
    }
    var list := singer.value;
    for i := 0 to |list|
      invariant |ret| == i
      invariant forall k :: 0 <= k < i ==> ret[k] == list[k].name
    {
      ret := ret + [list[i].name];
    }
    assert ret == Names(list);
    r := Join(ret, [SEPARATOR]);
  }

  /** Appending a part appends the separator and that part. */
  lemma {:induction false} JoinSnoc(parts: seq<string>, last: string, sep: string)
    requires |parts| >= 1
    ensures Join(parts + [last], sep) == Join(parts, sep) + sep + last
  {
    if |parts| == 1 {
      assert parts + [last] == [parts[0], last];
    } else {
      assert (parts + [last])[1..] == parts[1..] + [last];
      JoinSnoc(parts[1..], last, sep);
    }
  }

  /** The summed length of the parts. */
  function TotalLength(parts: seq<string>): (n: nat)
  {
    if parts == [] then 0 else |parts[0]| + TotalLength(parts[1..])
  }

  /** The joined text is as long as its parts plus one separator between each two. */
  lemma {:induction false} JoinLength(parts: seq<string>, sep: string)
    requires |parts| >= 1
    ensures |Join(parts, sep)| == TotalLength(parts) + (|parts| - 1) * |sep|
  {
    if |parts| > 1 {
      JoinLength(parts[1..], sep);
    }
  }

  /** A piece without the separator is not split. */
  lemma {:induction false} SplitPlain(a: string, sep: char)
    requires sep !in a
    ensures Split(a, sep) == [a]
    decreases |a|
  {
    if a != [] {
      SplitPlain(a[1..], sep);
      assert [a[0]] + a[1..] == a;
    }
  }

  /** Splitting stops at the first separator. */
  lemma {:induction false} SplitAtSeparator(a: string, b: string, sep: char)
    requires sep !in a
    ensures Split(a + [sep] + b, sep) == [a] + Split(b, sep)
    decreases |a|
  {
    var s := a + [sep] + b;
    if a == [] {
      assert s[0] == sep && s[1..] == b;
    } else {
      assert s[0] == a[0] && s[1..] == a[1..] + [sep] + b;
      SplitAtSeparator(a[1..], b, sep);
      assert [a[0]] + a[1..] == a;
    }
  }

  /**
   * Joining loses nothing: when no part contains the separator, splitting
   * the joined text at it gives back every part, in order.
   */
  lemma {:induction false} SplitJoin(parts: seq<string>, sep: char)
    requires |parts| >= 1
    requires forall i :: 0 <= i < |parts| ==> sep !in parts[i]
    ensures Split(Join(parts, [sep]), sep) == parts
  {
    if |parts| == 1 {
      SplitPlain(parts[0], sep);
    } else {
      SplitJoin(parts[1..], sep);
      SplitAtSeparator(parts[0], Join(parts[1..], [sep]), sep);
      assert [parts[0]] + parts[1..] == parts;
    }
  }

  /**
   * The singer line keeps every artist name in input order: for a
   * non-empty list of names without `/`, splitting the line at `/`
   * gives back exactly the names.
   */
  lemma SingerLineKeepsNames(list: seq<Singer>)
    requires |list| >= 1
    requires forall i :: 0 <= i < |list| ==> SEPARATOR !in list[i].name
    ensures Split(SingerLine(Some(list)), SEPARATOR) == Names(list)
  {
    SplitJoin(Names(list), SEPARATOR);
  }

  /** Adding an artist at the end of a non-empty list appends `/` and its name. */
  lemma SingerLineSnoc(list: seq<Singer>, s: Singer)
    requires |list| >= 1
    ensures SingerLine(Some(list + [s])) == SingerLine(Some(list)) + "/" + s.name
  {
    assert Names(list + [s]) == Names(list) + [s.name];
    JoinSnoc(Names(list), s.name, [SEPARATOR]);
  }
}
