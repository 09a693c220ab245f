/** The traditional-mode request path: `[raw/]<access>/<bucket>[/<key>]`. */
module RequestPath {
  import opened Wrappers
  import opened Strings
  import opened Uplink

  /** The segments of a request path, before the access is parsed. */
  datatype Segments = Segments(raw: bool, serializedAccess: string, bucket: string, key: string)

  /** What `parseRequestPath` returns: a raw flag, an optional access,
      the three strings, and an optional error. */
  datatype ParsedPath = ParsedPath(
    raw: bool,
    access: Option<Access>,
    serializedAccess: string,
    bucket: string,
    key: string,
    err: Option<string>)

  const MissingAccess := "missing access"
  const MissingBucket := "missing bucket"
  const RawMarker := "raw"

  /** The segmenting half of `parseRequestPath`: drop one leading `/`, split
      into at most four pieces, fold a fourth piece either into the raw flag
      or into the key. On success the access and bucket hold no `/`, and
      the trimmed path is recovered exactly from the segments. */
  function SplitRequestPath(p: string): (r: Result<Segments, string>)
    ensures var t := TrimPrefix(p, '/');
      && ('/' !in t <==> r.Failure?)
      && ('/' !in t ==> r == Failure(if t == "" then MissingAccess else MissingBucket))
    ensures r.Success? ==>
      var s := r.value;
      var t := TrimPrefix(p, '/');
      && '/' !in s.serializedAccess
      && '/' !in s.bucket
      && (t == FormatRequestPath(s) || (!s.raw && s.key == "" && t == s.serializedAccess + "/" + s.bucket))
    ensures r.Success? ==>
      var pieces := SplitN(TrimPrefix(p, '/'), '/', 4);
      r.value.raw <==> |pieces| == 4 && pieces[0] == RawMarker
  {
    var t := TrimPrefix(p, '/');
    var pieces := SplitN(t, '/', 4);
    FromPiecesShape(t, pieces);
    FromPieces(pieces)
  }

  /** Lines 321-346 of the handler: fold a fourth piece into the raw flag or
      into the key, reject a single piece, and name the rest. */
  function FromPieces(pieces: seq<string>): (r: Result<Segments, string>)
    requires 1 <= |pieces| <= 4
    ensures r.Failure? <==> |pieces| == 1
    ensures r.Failure? ==> r.error == (if pieces[0] == "" then MissingAccess else MissingBucket)
    ensures r.Success? ==> (r.value.raw <==> |pieces| == 4 && pieces[0] == RawMarker)
    ensures r.Success? && !r.value.raw ==> r.value.serializedAccess == pieces[0] && r.value.bucket == pieces[1]
  {
    if |pieces| == 1 then
      Failure(if pieces[0] == "" then MissingAccess else MissingBucket)
    else if |pieces| == 2 then
      Success(Segments(false, pieces[0], pieces[1], ""))
    else if |pieces| == 3 then
      Success(Segments(false, pieces[0], pieces[1], pieces[2]))
    else if pieces[0] == RawMarker then
      Success(Segments(true, pieces[1], pieces[2], pieces[3]))
    else
      Success(Segments(false, pieces[0], pieces[1], pieces[2] + "/" + pieces[3]))
  }

  /** The contract of `SplitRequestPath`, for the pieces it computes. */
  lemma FromPiecesShape(t: string, pieces: seq<string>)
    requires pieces == SplitN(t, '/', 4)
    ensures var r := FromPieces(pieces);
      && ('/' !in t <==> r.Failure?)
      && ('/' !in t ==> r == Failure(if t == "" then MissingAccess else MissingBucket))
      && (r.Success? ==>
            && '/' !in r.value.serializedAccess
            && '/' !in r.value.bucket
            && (t == FormatRequestPath(r.value)
                || (!r.value.raw && r.value.key == "" && t == r.value.serializedAccess + "/" + r.value.bucket))
            && (r.value.raw <==> |pieces| == 4 && pieces[0] == RawMarker))
  {
    SplitNSingle(t, '/', 4);
    if |pieces| > 1 {
      FromManyPieces(t, pieces);
    }
  }

  /** `FromPieces` on two to four pieces of `t`: the success half of the
      contract of `SplitRequestPath`. */
  lemma FromManyPieces(t: string, pieces: seq<string>)
    requires pieces == SplitN(t, '/', 4) && |pieces| > 1
    ensures var r := FromPieces(pieces);
      && r.Success?
      && '/' !in r.value.serializedAccess
      && '/' !in r.value.bucket
      && (t == FormatRequestPath(r.value)
          || (!r.value.raw && r.value.key == "" && t == r.value.serializedAccess + "/" + r.value.bucket))
      && (r.value.raw <==> |pieces| == 4 && pieces[0] == RawMarker)
  {
    SplitShape(t, pieces);
    SplitNSingle(t, '/', 4);
    if |pieces| >= 3 {
      FormatOfPieces(pieces);
    }
  }

  /** Three or four pieces format back to themselves joined by `/`. */
  lemma FormatOfPieces(pieces: seq<string>)
    requires 3 <= |pieces| <= 4
    ensures var r := FromPieces(pieces);
      && (|pieces| == 3 ==> FormatRequestPath(r.value) == pieces[0] + "/" + pieces[1] + "/" + pieces[2])
      && (|pieces| == 4 ==>
            FormatRequestPath(r.value) == pieces[0] + "/" + pieces[1] + "/" + pieces[2] + "/" + pieces[3])
  {
    var r := FromPieces(pieces);
    assert "" + pieces[0] == pieces[0];
    if |pieces| == 4 && pieces[0] != RawMarker {
      var front := pieces[0] + "/" + pieces[1] + "/";
      assert FormatRequestPath(r.value) == "" + front + (pieces[2] + "/" + pieces[3]);
      AppendAssoc(front, pieces[2] + "/", pieces[3]);
      AppendAssoc(front, pieces[2], "/");
    }
  }

  /** How a piece list produced by `SplitN(t, "/", 4)` spells `t`. */
  lemma SplitShape(t: string, pieces: seq<string>)
    requires pieces == SplitN(t, '/', 4)
    ensures |pieces| == 2 ==> t == pieces[0] + "/" + pieces[1]
    ensures |pieces| == 3 ==> t == pieces[0] + "/" + pieces[1] + "/" + pieces[2]
    ensures |pieces| == 4 ==> t == pieces[0] + "/" + pieces[1] + "/" + pieces[2] + "/" + pieces[3]
  {
    JoinSplitN(t, '/', 4);
    JoinUnfold(pieces, '/');
  }

  /** `Join` spelled out for two, three and four pieces. */
  lemma JoinUnfold(parts: seq<string>, c: char)
    ensures |parts| == 2 ==> Join(parts, c) == parts[0] + [c] + parts[1]
    ensures |parts| == 3 ==> Join(parts, c) == parts[0] + [c] + parts[1] + [c] + parts[2]
    ensures |parts| == 4 ==> Join(parts, c) == parts[0] + [c] + parts[1] + [c] + parts[2] + [c] + parts[3]
  {
    if |parts| >= 2 {
      var p1 := parts[1..];
      if |parts| >= 3 {
        var p2 := p1[1..];
        assert p2 == parts[2..];
        if |parts| == 4 {
          assert p2[1..] == [parts[3]];
        }
      }
    }
  }

  /** `parseRequestPath`: segment the path, then parse the access with the
      storage client's `ParseAccess`. Every failure carries no access and
      empty strings; the raw flag is reported even on failure. */
  function ParseRequestPath(p: string, parseAccess: string -> Result<Access, string>): (r: ParsedPath)
    ensures r.err.Some? <==> r.access.None?
    ensures r.err.Some? ==> r.serializedAccess == "" && r.bucket == "" && r.key == ""
    ensures SplitRequestPath(p).Failure? ==>
      r == ParsedPath(false, None, "", "", "", Some(SplitRequestPath(p).error))
    ensures SplitRequestPath(p).Success? ==>
      var s := SplitRequestPath(p).value;
      && r.raw == s.raw
      && (parseAccess(s.serializedAccess).Failure? ==> r.err == Some(parseAccess(s.serializedAccess).error))
      && (parseAccess(s.serializedAccess).Success? ==>
            r == ParsedPath(s.raw, Some(parseAccess(s.serializedAccess).value), s.serializedAccess, s.bucket, s.key, None))
  {
    match SplitRequestPath(p)
    case Failure(e) => ParsedPath(false, None, "", "", "", Some(e))
    case Success(s) =>
      match parseAccess(s.serializedAccess)
      case Failure(e) => ParsedPath(s.raw, None, "", "", "", Some(e))
      case Success(a) => ParsedPath(s.raw, Some(a), s.serializedAccess, s.bucket, s.key, None)
  }

  /** The path a share link uses for the given segments, without the
      leading `/`: the inverse of `SplitRequestPath`. */
  function FormatRequestPath(s: Segments): string
  {
    (if s.raw then RawMarker + "/" else "") + s.serializedAccess + "/" + s.bucket + "/" + s.key
  }

  /** Segmenting a formatted path gives back its segments, provided the
      access and bucket hold no `/` and a non-raw link is not mistaken for
      a raw one (an access spelled `raw` followed by a key with a `/`). */
  lemma SplitFormatted(s: Segments)
    requires '/' !in s.serializedAccess && '/' !in s.bucket
    requires !s.raw && s.serializedAccess == RawMarker ==> '/' !in s.key
    ensures SplitRequestPath("/" + FormatRequestPath(s)) == Success(s)
  {
    var t := FormatRequestPath(s);
    assert TrimPrefix("/" + t, '/') == t by {
      assert ("/" + t)[1..] == t;
    }
    var pieces := SplitN(t, '/', 4);
    if s.raw {
      assert '/' !in RawMarker;
      PiecesOfFour(RawMarker, s.serializedAccess, s.bucket, s.key);
    } else {
      PiecesOfPlain(s.serializedAccess, s.bucket, s.key);
      if '/' in s.key {
        assert pieces[0] != RawMarker;
      }
    }
  }

  /** Four pieces, the first three free of `/`, split back apart. */
  lemma PiecesOfFour(m: string, a: string, b: string, key: string)
    requires '/' !in m && '/' !in a && '/' !in b
    ensures SplitN(m + "/" + a + "/" + b + "/" + key, '/', 4) == [m, a, b, key]
  {
    var s3 := b + "/" + key;
    var s2 := a + "/" + s3;
    SeparatedRight(m, a, b, key, '/');
    assert m + "/" + a + "/" + b + "/" + key == m + "/" + s2;
    assert SplitN(key, '/', 1) == [key];
    SplitNCons(b, key, '/', 2, [key]);
    SplitNCons(a, s3, '/', 3, [b, key]);
    SplitNCons(m, s2, '/', 4, [a, b, key]);
    ConsOfThree(m, a, b, key);
  }

  /** A plain link `a/b/key` splits into access, bucket and the key, the
      key cut once more at its first `/` when it has one. */
  lemma PiecesOfPlain(a: string, b: string, key: string)
    requires '/' !in a && '/' !in b
    ensures var pieces := SplitN("" + a + "/" + b + "/" + key, '/', 4);
      && ('/' !in key ==> pieces == [a, b, key])
      && ('/' in key ==> |pieces| == 4 && pieces[0] == a && pieces[1] == b && pieces[2] + "/" + pieces[3] == key)
  {
    var rest := SplitN(key, '/', 2);
    PlainCut(a, b, key);
    SplitNSingle(key, '/', 2);
    if '/' in key {
      JoinSplitN(key, '/', 2);
      JoinUnfold(rest, '/');
    }
  }

  /** The two cuts of a plain link: access, bucket, then the key's pieces. */
  lemma PlainCut(a: string, b: string, key: string)
    requires '/' !in a && '/' !in b
    ensures SplitN("" + a + "/" + b + "/" + key, '/', 4) == [a, b] + SplitN(key, '/', 2)
  {
    var rest := SplitN(key, '/', 2);
    assert "" + a + "/" + b + "/" + key == a + "/" + (b + "/" + key);
    SplitNCons(b, key, '/', 3, rest);
    SplitNCons(a, b + "/" + key, '/', 4, [b] + rest);
    ConsOfCons(a, b, rest);
  }

  /** Two pieces put before a list, one at a time. */
  lemma ConsOfCons<T>(a: T, b: T, rest: seq<T>)
    ensures [a] + ([b] + rest) == [a, b] + rest
  {
  }

  /** A piece put before three gives four. */
  lemma ConsOfThree<T>(m: T, a: T, b: T, k: T)
    ensures [m] + [a, b, k] == [m, a, b, k]
  {
  }

  /** A link to a whole bucket, `/<access>/<bucket>` without a trailing
      slash, segments into that access and bucket with an empty key. */
  lemma SplitBucketLink(a: string, b: string)
    requires '/' !in a && '/' !in b
    ensures SplitRequestPath("/" + a + "/" + b) == Success(Segments(false, a, b, ""))
  {
    var t := a + "/" + b;
    assert TrimPrefix("/" + a + "/" + b, '/') == t by {
      assert ("/" + a + "/" + b)[1..] == t;
    }
    SplitNAt(a, b, '/', 4);
    assert SplitN(t, '/', 4) == [a, b];
  }

  /** Parsing a formatted path yields its segments and the parsed access,
      or exactly the error `ParseAccess` reports. */
  lemma ParseFormatted(s: Segments, parseAccess: string -> Result<Access, string>)
    requires '/' !in s.serializedAccess && '/' !in s.bucket
    requires !s.raw && s.serializedAccess == RawMarker ==> '/' !in s.key
    ensures var r := ParseRequestPath("/" + FormatRequestPath(s), parseAccess);
      match parseAccess(s.serializedAccess)
      case Success(a) => r == ParsedPath(s.raw, Some(a), s.serializedAccess, s.bucket, s.key, None)
      case Failure(e) => r == ParsedPath(s.raw, None, "", "", "", Some(e))
  {
    SplitFormatted(s);
  }
}
