/** Album-ID extraction in the POST handler of
    src/app/api/spotify-cover/route.js: `url.split("/").pop().split("?")[0]`.
    The string operations are those of JavaScript, on sequences of chars. */
module AlbumIds {

  /** Glue the parts back together with the separator between them. */
  function Join(parts: seq<string>, sep: char): string
    requires |parts| >= 1
    decreases |parts|
  {
    if |parts| == 1 then parts[0] else parts[0] + [sep] + Join(parts[1..], sep)
  }

  /** `s.split(sep)` for a one-character separator: the pieces between
      separators, empty pieces kept, and always at least one piece (the
      empty string gives `[""]`). */
  function Split(s: string, sep: char): (parts: seq<string>)
    ensures |parts| >= 1
    ensures |parts| == 1 <==> sep !in s
    ensures forall i :: 0 <= i < |parts| ==> sep !in parts[i]
    decreases |s|
  {
    if |s| == 0 then [""]
    else if s[0] == sep then [""] + Split(s[1..], sep)
    else
      var rest := Split(s[1..], sep);
      assert s == [s[0]] + s[1..];
      [[s[0]] + rest[0]] + rest[1..]
  }

  /** Joining the pieces with the separator gives back the string. */
  lemma {:induction false} SplitJoinRoundTrip(s: string, sep: char)
    ensures Join(Split(s, sep), sep) == s
    decreases |s|
  {
    if |s| > 0 {
      var rest := Split(s[1..], sep);
      SplitJoinRoundTrip(s[1..], sep);
      if s[0] == sep {
        assert Split(s, sep) == [""] + rest;
        assert Split(s, sep)[1..] == rest;
      } else {
        var parts := [[s[0]] + rest[0]] + rest[1..];
        assert Split(s, sep) == parts;
        if |rest| > 1 {
          assert parts[1..] == rest[1..];
          assert Join(rest, sep) == rest[0] + [sep] + Join(rest[1..], sep);
        }
        assert s == [s[0]] + s[1..];
      }
    }
  }

  /** The text after the last `c`, or all of `s` when it has none. */
  function AfterLast(s: string, c: char): (r: string)
    ensures c !in r
    decreases |s|
  {
    if c !in s then s else AfterLast(s[1..], c)
  }

  /** `AfterLast` is a suffix of `s` that is either all of `s` or preceded by `c`;
      with `c !in AfterLast(s, c)` this is the longest `c`-free suffix. */
  lemma {:induction false} AfterLastIsSuffix(s: string, c: char)
    ensures var r := AfterLast(s, c);
      |r| <= |s| && r == s[|s| - |r|..] && (|r| < |s| ==> s[|s| - |r| - 1] == c)
    decreases |s|
  {
    if c in s {
      var r := AfterLast(s, c);
      AfterLastIsSuffix(s[1..], c);
      assert s[1..][|s| - 1 - |r|..] == s[|s| - |r|..];
      if |r| == |s| - 1 {
        assert s == [s[0]] + s[1..];
        assert c !in s[1..];
      }
    }
  }

  /** When `s[k]` is the last `c`, the text after the last `c` starts at k + 1. */
  lemma AfterLastAt(s: string, c: char, k: int)
    requires 0 <= k < |s| && s[k] == c && c !in s[k + 1..]
    ensures AfterLast(s, c) == s[k + 1..]
  {
    var r := AfterLast(s, c);
    AfterLastIsSuffix(s, c);
  }

  /** The text before the first `c`, or all of `s` when it has none. */
  function BeforeFirst(s: string, c: char): (r: string)
    ensures c !in r
    ensures |r| <= |s| && r == s[..|r|]
    ensures |r| < |s| ==> s[|r|] == c
    decreases |s|
  {
    if |s| == 0 || s[0] == c then [] else [s[0]] + BeforeFirst(s[1..], c)
  }

  /** When `s[k]` is the first `c`, the text before the first `c` is `s[..k]`. */
  lemma BeforeFirstAt(s: string, c: char, k: int)
    requires 0 <= k < |s| && s[k] == c && c !in s[..k]
    ensures BeforeFirst(s, c) == s[..k]
  {
  }

  /** `url.split("/").pop().split("?")[0]`. Every string is accepted: the
      handler passes whatever comes out on to the album lookup. */
  function AlbumId(url: string): (id: string)
    ensures '/' !in id && '?' !in id
  {
    var pieces := Split(url, '/');
    var last := pieces[|pieces| - 1];
    FirstPieceIsBeforeFirst(last, '?');
    Split(last, '?')[0]
  }

  /** `c` occurs in `s` exactly when it is its head or occurs in its tail. */
  lemma InHeadOrTail(s: string, c: char)
    requires |s| > 0
    ensures c in s <==> s[0] == c || c in s[1..]
  {
    assert s == [s[0]] + s[1..];
  }

  /** `pop()` after splitting yields the text after the last separator. */
  lemma {:induction false} LastPieceIsAfterLast(s: string, c: char)
    ensures var parts := Split(s, c); parts[|parts| - 1] == AfterLast(s, c)
    decreases |s|
  {
    if |s| > 0 {
      var parts, rest := Split(s, c), Split(s[1..], c);
      LastPieceIsAfterLast(s[1..], c);
      InHeadOrTail(s, c);
      if c in s[1..] || s[0] == c {
        assert parts[|parts| - 1] == rest[|rest| - 1] by {
          assert |rest| > 1 || s[0] == c;
        }
        assert AfterLast(s, c) == AfterLast(s[1..], c);
      } else {
        assert parts == [[s[0]] + s[1..]] by {
          assert AfterLast(s[1..], c) == s[1..];
        }
        assert s == [s[0]] + s[1..];
      }
    }
  }

  /** `[0]` after splitting yields the text before the first separator. */
  lemma {:induction false} FirstPieceIsBeforeFirst(s: string, c: char)
    ensures Split(s, c)[0] == BeforeFirst(s, c)
    decreases |s|
  {
    if |s| > 0 && s[0] != c {
      FirstPieceIsBeforeFirst(s[1..], c);
    }
  }

  /** The ID is the part before the first `?` of the text after the last `/`. */
  lemma AlbumIdIsQueryFreeLastSegment(url: string)
    ensures AlbumId(url) == BeforeFirst(AfterLast(url, '/'), '?')
  {
    LastPieceIsAfterLast(url, '/');
    FirstPieceIsBeforeFirst(AfterLast(url, '/'), '?');
  }

  /** A string with neither `/` nor `?` is its own ID. */
  lemma PlainIdUnchanged(url: string)
    requires '/' !in url && '?' !in url
    ensures AlbumId(url) == url
  {
    AlbumIdIsQueryFreeLastSegment(url);
  }

  /** A URL that ends in `/` gives the empty ID. */
  lemma TrailingSlashGivesEmptyId(url: string)
    requires |url| > 0 && url[|url| - 1] == '/'
    ensures AlbumId(url) == ""
  {
    AlbumIdIsQueryFreeLastSegment(url);
    AfterLastAt(url, '/', |url| - 1);
  }

  /** Extracting again from an ID changes nothing. */
  lemma AlbumIdIdempotent(url: string)
    ensures AlbumId(AlbumId(url)) == AlbumId(url)
  {
    PlainIdUnchanged(AlbumId(url));
  }

  /** A share link `prefix/ID?query`, with no `/` after the last one and no
      `?` inside the ID, gives exactly the ID. */
  lemma ShareLinkGivesId(prefix: string, id: string, query: string)
    requires '/' !in id && '?' !in id && '/' !in query
    ensures AlbumId(prefix + "/" + id + "?" + query) == id
  {
    var url := prefix + "/" + id + "?" + query;
    var tail := id + "?" + query;
    AlbumIdIsQueryFreeLastSegment(url);
    assert url[|prefix| + 1..] == tail;
    assert '/' !in tail by {
      assert forall i :: 0 <= i < |tail| ==> tail[i] == (if i < |id| then id[i] else if i == |id| then '?' else query[i - |id| - 1]);
    }
    AfterLastAt(url, '/', |prefix|);
    BeforeFirstAt(tail, '?', |id|);
    assert tail[..|id|] == id;
  }
}
