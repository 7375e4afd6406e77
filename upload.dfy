/**
 * `CommonController.upload`: an uploaded image is stored under a fresh name made of a UUID
 * without hyphens and the extension taken from the original file name, and the caller gets
 * back the URL path under `/images/`.
 */
module Upload {
  import opened Wrappers

  // ---------------------------------------------------------------- `String.split("\\.")`

  /** The pieces of `s` between dots, empty pieces included (the split before trailing empties are dropped). */
  function SplitDots(s: string): (parts: seq<string>)
    ensures |parts| >= 1
    ensures forall i :: 0 <= i < |parts| ==> '.' !in parts[i]
    decreases |s|
  {
    if s == [] then [[]]
    else
      var rest := SplitDots(s[1..]);
      if s[0] == '.' then [[]] + rest
      else [[s[0]] + rest[0]] + rest[1..]
  }

  /** The pieces put back together with a dot between neighbours. */
  function JoinDots(parts: seq<string>): string
    decreases |parts|
  {
    if parts == [] then []
    else if |parts| == 1 then parts[0]
    else parts[0] + "." + JoinDots(parts[1..])
  }

  /** Splitting loses nothing: joining the pieces gives the string back. */
  lemma {:induction false} JoinSplitDots(s: string)
    ensures JoinDots(SplitDots(s)) == s
    decreases |s|
  {
    if s != [] {
      var rest := SplitDots(s[1..]);
      JoinSplitDots(s[1..]);
      if s[0] == '.' {
        assert ([[]] + rest)[1..] == rest;
      } else if |rest| == 1 {
        assert [s[0]] + s[1..] == s;
      } else {
        var parts := [[s[0]] + rest[0]] + rest[1..];
        assert parts[1..] == rest[1..];
        assert JoinDots(rest) == rest[0] + "." + JoinDots(rest[1..]);
        assert [s[0]] + s[1..] == s;
      }
    }
  }

  /** A dot-free piece followed by a dot: the piece comes off first. */
  lemma {:induction false} SplitAfterPiece(a: string, u: string)
    requires '.' !in a
    ensures SplitDots(a + "." + u) == [a] + SplitDots(u)
    decreases |a|
  {
    if a == [] {
      assert a + "." + u == "." + u;
      assert ("." + u)[1..] == u;
    } else {
      assert (a + "." + u)[1..] == a[1..] + "." + u;
      SplitAfterPiece(a[1..], u);
      assert [a[0]] + a[1..] == a;
    }
  }

  /** A dot-free string is a single piece. */
  lemma {:induction false} SplitNoDot(a: string)
    requires '.' !in a
    ensures SplitDots(a) == [a]
    decreases |a|
  {
    if a != [] {
      SplitNoDot(a[1..]);
      assert [a[0]] + a[1..] == a;
    }
  }

  predicate AllDots(t: string) {
    forall i :: 0 <= i < |t| ==> t[i] == '.'
  }

  /** Every piece is empty exactly when the string is nothing but dots. */
  lemma {:induction false} SplitAllEmpty(t: string)
    ensures (forall k :: 0 <= k < |SplitDots(t)| ==> SplitDots(t)[k] == []) <==> AllDots(t)
    decreases |t|
  {
    if t != [] {
      SplitAllEmpty(t[1..]);
      var rest := SplitDots(t[1..]);
      if t[0] == '.' {
        var parts := [[]] + rest;
        assert SplitDots(t) == parts;
        if forall k :: 0 <= k < |rest| ==> rest[k] == [] {
          forall k | 0 <= k < |parts| ensures parts[k] == [] {
            if k > 0 { assert parts[k] == rest[k - 1]; }
          }
        }
        if forall k :: 0 <= k < |parts| ==> parts[k] == [] {
          forall k | 0 <= k < |rest| ensures rest[k] == [] {
            assert parts[k + 1] == rest[k];
          }
        }
        if AllDots(t[1..]) {
          forall i | 0 <= i < |t| ensures t[i] == '.' {
            if i > 0 { assert t[i] == t[1..][i - 1]; }
          }
        }
        if AllDots(t) {
          forall i | 0 <= i < |t[1..]| ensures t[1..][i] == '.' {
            assert t[1..][i] == t[i + 1];
          }
        }
      } else {
        assert SplitDots(t)[0] != [];
      }
    }
  }

  /** Drop the empty pieces at the end, as Java's `split` does. */
  function DropTrailingEmpty(parts: seq<string>): (r: seq<string>)
    ensures |r| <= |parts| && r == parts[..|r|]
    ensures forall i :: |r| <= i < |parts| ==> parts[i] == []
    ensures r != [] ==> r[|r| - 1] != []
    decreases |parts|
  {
    if parts == [] then []
    else if parts[|parts| - 1] == [] then
      var r := DropTrailingEmpty(parts[..|parts| - 1]);
      assert parts[..|parts| - 1][..|r|] == parts[..|r|];
      r
    else parts
  }

  /**
   * `s.split("\\.")`: when there is no dot the array holds `s` alone (even when `s` is empty);
   * otherwise the pieces, leading empty ones kept and trailing empty ones dropped.
   */
  function JavaSplit(s: string): (parts: seq<string>)
    ensures '.' !in s ==> parts == [s]
    ensures '.' in s ==> parts == DropTrailingEmpty(SplitDots(s))
  {
    if '.' !in s then [s] else DropTrailingEmpty(SplitDots(s))
  }

  // ---------------------------------------------------------------- the extension

  /** `"." + originalFilename.split("\\.")[1]`; None where the index is out of bounds and the call throws. */
  function Extension(originalFilename: string): (ext: Option<string>)
    ensures ext.Some? <==> |JavaSplit(originalFilename)| >= 2
    ensures ext.Some? ==> ext.value == "." + JavaSplit(originalFilename)[1]
  {
    var parts := JavaSplit(originalFilename);
    if |parts| >= 2 then Some("." + parts[1]) else None
  }

  /** No dot at all, or only dots after the first one. */
  predicate NothingAfterFirstDot(name: string) {
    forall i, j :: 0 <= i < j < |name| && name[i] == '.' ==> name[j] == '.'
  }

  /** The first dot of a name that has one. */
  lemma FirstDot(name: string) returns (f: nat)
    requires '.' in name
    ensures f < |name| && name[f] == '.' && '.' !in name[..f]
  {
    f := 0;
    while name[f] != '.'
      invariant f < |name| && '.' !in name[..f]
      invariant '.' in name[f..]
      decreases |name| - f
    {
      assert name[f..] == [name[f]] + name[f + 1..];
      f := f + 1;
    }
  }

  /** After the empty pieces at the end are dropped, two or more are left iff some piece after the first is non-empty. */
  lemma DropTrailingAtLeastTwo(raw: seq<string>)
    ensures |DropTrailingEmpty(raw)| >= 2 <==> exists k :: 1 <= k < |raw| && raw[k] != []
  {
    var r := DropTrailingEmpty(raw);
    if |r| >= 2 {
      assert raw[|r| - 1] == r[|r| - 1];
    }
  }

  /** Past the first dot at `f`, a name has only dots iff the rest after `f` is all dots. */
  lemma AfterFirstDot(name: string, f: nat)
    requires f < |name| && name[f] == '.' && '.' !in name[..f]
    ensures NothingAfterFirstDot(name) <==> AllDots(name[f + 1..])
  {
    var t := name[f + 1..];
    forall i | 0 <= i < f ensures name[i] != '.' {
      assert name[..f][i] == name[i];
    }
    if AllDots(t) {
      forall i, j | 0 <= i < j < |name| && name[i] == '.' ensures name[j] == '.' {
        assert t[j - f - 1] == name[j];
      }
    }
    if NothingAfterFirstDot(name) {
      forall i | 0 <= i < |t| ensures t[i] == '.' {
        assert t[i] == name[f + 1 + i];
      }
    }
  }

  /** A name without a dot splits into itself alone, so the call throws. */
  lemma ExtensionMissingNoDot(name: string)
    requires '.' !in name
    ensures Extension(name).None? && NothingAfterFirstDot(name)
  {
    assert forall i :: 0 <= i < |name| ==> name[i] != '.';
  }

  /** The call throws exactly when the name has no dot, or has nothing but dots after its first dot. */
  lemma ExtensionMissing(name: string)
    ensures Extension(name).None? <==> NothingAfterFirstDot(name)
  {
    if '.' !in name {
      ExtensionMissingNoDot(name);
    } else {
      var f := FirstDot(name);
      var a, t := name[..f], name[f + 1..];
      assert name == a + "." + t;
      SplitAfterPiece(a, t);
      var raw := SplitDots(name);
      assert raw == [a] + SplitDots(t);
      SplitAllEmpty(t);
      DropTrailingAtLeastTwo(raw);
      AfterFirstDot(name, f);
      if exists k :: 1 <= k < |raw| && raw[k] != [] {
        var k :| 1 <= k < |raw| && raw[k] != [];
        assert SplitDots(t)[k - 1] != [];
      }
      if exists k :: 0 <= k < |SplitDots(t)| && SplitDots(t)[k] != [] {
        var k :| 0 <= k < |SplitDots(t)| && SplitDots(t)[k] != [];
        assert raw[k + 1] != [];
      }
    }
  }

  /**
   * A name `a.b…` whose first piece `a` and second piece `b` have no dot gets the extension
   * `.b`, unless `b` is empty and only dots follow.
   */
  lemma ExtensionIsSecondPiece(a: string, b: string, t: string)
    requires '.' !in a && '.' !in b
    requires t == [] || t[0] == '.'
    requires b != [] || !AllDots(t)
    ensures Extension(a + "." + b + t) == Some("." + b)
  {
    var name := a + "." + b + t;
    assert name == a + "." + (b + t);
    SplitAfterPiece(a, b + t);
    assert name[|a|] == '.';
    var raw := SplitDots(name);
    if t == [] {
      assert b + t == b;
      SplitNoDot(b);
      assert raw == [a, b];
    } else {
      var u := t[1..];
      assert b + t == b + "." + u;
      SplitAfterPiece(b, u);
      assert raw == [a, b] + SplitDots(u);
      if b == [] {
        SplitAllEmpty(u);
        var i :| 0 <= i < |t| && t[i] != '.';
        assert u[i - 1] == t[i];
        var k :| 0 <= k < |SplitDots(u)| && SplitDots(u)[k] != [];
        assert raw[k + 2] != [];
        assert |DropTrailingEmpty(raw)| > k + 2;
      } else {
        assert raw[1] != [];
        assert |DropTrailingEmpty(raw)| > 1;
      }
      assert DropTrailingEmpty(raw)[1] == raw[1];
    }
  }

  /** "a.tar.gz" gives ".tar": only the second piece counts. */
  lemma ExtensionOfDoubleSuffix()
    ensures Extension("a.tar.gz") == Some(".tar")
  {
    ExtensionIsSecondPiece("a", "tar", ".gz");
    DoubleSuffixSpelling();
  }

  /** The spellings `ExtensionOfDoubleSuffix` needs, kept apart so that its proof stays small. */
  lemma DoubleSuffixSpelling()
    ensures "a" + "." + "tar" + ".gz" == "a.tar.gz"
    ensures "." + "tar" == ".tar"
  {
  }

  /** ".png" gives ".png": the empty piece before the dot is kept. */
  lemma ExtensionOfDotFile()
    ensures Extension(".png") == Some(".png")
  {
    ExtensionIsSecondPiece("", "png", "");
    assert "" + "." + "png" + "" == ".png";
    assert "." + "png" == ".png";
  }

  /** "a." and "photo" have no second piece, so the call throws. */
  lemma ExtensionAbsentExamples()
    ensures Extension("a.") == None
    ensures Extension("photo") == None
  {
    ExtensionMissing("a.");
    ExtensionMissingNoDot("photo");
  }

  // ---------------------------------------------------------------- the stored name

  /** `uuid.replace("-", "")`. */
  function RemoveHyphens(u: string): (r: string)
    ensures '-' !in r
    ensures |r| <= |u|
    ensures '-' !in u ==> r == u
    decreases |u|
  {
    if u == [] then []
    else (if u[0] == '-' then [] else [u[0]]) + RemoveHyphens(u[1..])
  }

  lemma {:induction false} RemoveHyphensAppend(a: string, b: string)
    ensures RemoveHyphens(a + b) == RemoveHyphens(a) + RemoveHyphens(b)
    decreases |a|
  {
    if a != [] {
      var h := if a[0] == '-' then [] else [a[0]];
      assert RemoveHyphens(a + b) == h + RemoveHyphens(a[1..] + b) by {
        assert (a + b)[0] == a[0] && (a + b)[1..] == a[1..] + b;
      }
      RemoveHyphensAppend(a[1..], b);
      Regroup3(h, RemoveHyphens(a[1..]), RemoveHyphens(b));
    } else {
      assert a + b == b;
    }
  }

  lemma Regroup3(a: string, b: string, c: string)
    ensures a + (b + c) == (a + b) + c
  {
  }

  predicate IsHexDigit(c: char) {
    '0' <= c <= '9' || 'a' <= c <= 'f'
  }

  /** The text form of `UUID.randomUUID()`: 8-4-4-4-12 lower-case hex digits. */
  predicate CanonicalUuid(u: string) {
    && |u| == 36
    && u[8] == '-' && u[13] == '-' && u[18] == '-' && u[23] == '-'
    && forall i :: 0 <= i < 36 && i != 8 && i != 13 && i != 18 && i != 23 ==> IsHexDigit(u[i])
  }

  predicate AllHex(s: string) {
    forall i :: 0 <= i < |s| ==> IsHexDigit(s[i])
  }

  lemma HexConcat(a: string, b: string)
    requires AllHex(a) && AllHex(b)
    ensures AllHex(a + b)
  {
    forall i | 0 <= i < |a + b| ensures IsHexDigit((a + b)[i]) {
      if i >= |a| {
        assert (a + b)[i] == b[i - |a|];
      }
    }
  }

  /** A stretch of a canonical UUID between two hyphen positions is hex digits only. */
  lemma HexStretch(u: string, lo: nat, hi: nat)
    requires CanonicalUuid(u) && lo <= hi <= 36
    requires hi <= 8 || 9 <= lo <= hi <= 13 || 14 <= lo <= hi <= 18 || 19 <= lo <= hi <= 23 || 24 <= lo
    ensures AllHex(u[lo..hi])
    ensures RemoveHyphens(u[lo..hi]) == u[lo..hi]
  {
    var w := u[lo..hi];
    forall i | 0 <= i < |w| ensures IsHexDigit(w[i]) && w[i] != '-' {
      assert w[i] == u[lo + i];
    }
  }

  /** Removing the hyphen at position `k` splits the text there, each side losing its own hyphens. */
  lemma RemoveAt(w: string, k: nat)
    requires k < |w| && w[k] == '-'
    ensures RemoveHyphens(w) == RemoveHyphens(w[..k]) + RemoveHyphens(w[k + 1..])
  {
    var x, rest := w[..k], w[k..];
    assert w == x + rest;
    RemoveHyphensAppend(x, rest);
    assert RemoveHyphens(rest) == RemoveHyphens(w[k + 1..]) by {
      assert rest[0] == '-' && rest[1..] == w[k + 1..];
    }
  }

  /** The hyphens of a canonical UUID sit at 8, 13, 18 and 23: removing them leaves the five stretches. */
  lemma StemPieces(u: string)
    requires CanonicalUuid(u)
    ensures RemoveHyphens(u) == u[..8] + (u[9..13] + (u[14..18] + (u[19..23] + u[24..])))
  {
    var t1, t2, t3 := u[9..], u[14..], u[19..];
    HexStretch(u, 0, 8);
    HexStretch(u, 9, 13);
    HexStretch(u, 14, 18);
    HexStretch(u, 19, 23);
    HexStretch(u, 24, 36);
    assert u[..8] == u[0..8] && u[24..] == u[24..36];
    RemoveAt(u, 8);
    RemoveAt(t1, 4);
    SuffixPieces(u, 9, 4);
    RemoveAt(t2, 4);
    SuffixPieces(u, 14, 4);
    RemoveAt(t3, 4);
    SuffixPieces(u, 19, 4);
  }

  /** A canonical UUID loses exactly its four hyphens: 32 hex digits in their order. */
  lemma CanonicalUuidStem(u: string)
    requires CanonicalUuid(u)
    ensures RemoveHyphens(u) == u[..8] + u[9..13] + u[14..18] + u[19..23] + u[24..]
    ensures |RemoveHyphens(u)| == 32
    ensures forall i :: 0 <= i < 32 ==> IsHexDigit(RemoveHyphens(u)[i])
  {
    var s0, s1, s2, s3, s4 := u[..8], u[9..13], u[14..18], u[19..23], u[24..];
    StemPieces(u);
    HexStretch(u, 0, 8);
    HexStretch(u, 9, 13);
    HexStretch(u, 14, 18);
    HexStretch(u, 19, 23);
    HexStretch(u, 24, 36);
    assert u[0..8] == s0 && u[24..36] == s4;
    HexConcat(s3, s4);
    HexConcat(s2, s3 + s4);
    HexConcat(s1, s2 + (s3 + s4));
    HexConcat(s0, s1 + (s2 + (s3 + s4)));
    Regroup(s0, s1, s2, s3, s4);
  }

  lemma SuffixPieces(u: string, k: nat, n: nat)
    requires k + n < |u|
    ensures u[k..][..n] == u[k..k + n] && u[k..][n + 1..] == u[k + n + 1..]
  {
  }

  /** Reassociation that `CanonicalUuidStem` needs; left to the solver inside that proof it runs out of resource. */
  lemma Regroup(a: string, b: string, c: string, d: string, e: string)
    ensures a + (b + (c + (d + e))) == a + b + c + d + e
  {
  }

  /** `uuid + ext`. */
  function StoredName(uuid: string, ext: string): (name: string)
    ensures |name| == |RemoveHyphens(uuid)| + |ext|
    ensures name[|name| - |ext|..] == ext
    ensures '-' !in name[..|name| - |ext|]
  {
    RemoveHyphens(uuid) + ext
  }

  /** `"/images/" + fileName`. */
  function ImageUrl(fileName: string): (url: string)
    ensures |url| == 8 + |fileName|
    ensures url[..8] == "/images/" && url[8..] == fileName
  {
    "/images/" + fileName
  }

  // ---------------------------------------------------------------- the controller

  /** `MessageConstant.UPLOAD_FAILED`. */
  datatype UploadError = UploadFailed

  /** The uploaded part: its client-side name and its bytes (empty means `isEmpty()`). */
  datatype MultipartFile = MultipartFile(originalFilename: string, content: seq<int>)

  /** What happens to the caller: a returned `Result`, or the index exception escaping the method. */
  datatype Outcome = Returned(result: Result<string, UploadError>) | ThrownIndexOutOfBounds

  /** The image directory, file name to bytes. */
  class ImageFolder {
    var files: map<string, seq<int>>

    constructor (files: map<string, seq<int>>)
      ensures this.files == files
    {
      this.files := files;
    }

    /**
     * `upload` with the UUID it draws and whether `transferTo` succeeds: an empty file fails
     * and a name without a second piece throws, both before anything is written; otherwise the
     * bytes are stored under the new name and its URL returned, or nothing is stored and the
     * call fails.
     */
    method Upload(file: MultipartFile, uuid: string, writeSucceeds: bool) returns (o: Outcome)
      modifies this
      ensures file.content == [] ==> o == Returned(Failure(UploadFailed)) && files == old(files)
      ensures file.content != [] && Extension(file.originalFilename).None? ==>
        o == ThrownIndexOutOfBounds && files == old(files)
      ensures file.content != [] && Extension(file.originalFilename).Some? ==>
        var fileName := StoredName(uuid, Extension(file.originalFilename).value);
        if writeSucceeds
        then o == Returned(Success(ImageUrl(fileName))) && files == old(files)[fileName := file.content]
        else o == Returned(Failure(UploadFailed)) && files == old(files)
    {
      if |file.content| == 0 {
        return Returned(Failure(UploadFailed));
      }
      var originalFilename := file.originalFilename;
      var parts := JavaSplit(originalFilename);
      if |parts| < 2 {
        return ThrownIndexOutOfBounds;
      }
      var ext := "." + parts[1];
      var fileName := RemoveHyphens(uuid) + ext;
      if writeSucceeds {
        files := files[fileName := file.content];
        var imageUrl := "/images/" + fileName;
        return Returned(Success(imageUrl));
      } else {
        return Returned(Failure(UploadFailed));
      }
    }
  }

  /** A successful upload names a stored file: the URL is `/images/` + a key holding the uploaded bytes. */
  lemma UploadedUrlNamesFile(files: map<string, seq<int>>, file: MultipartFile, uuid: string)
    requires file.content != [] && Extension(file.originalFilename).Some?
    ensures var fileName := StoredName(uuid, Extension(file.originalFilename).value);
      var url := ImageUrl(fileName);
      url[8..] in files[fileName := file.content] && files[fileName := file.content][url[8..]] == file.content
  {
  }
}
