/**
 * `PermissionAspect`: the request path of an annotated controller method is rebuilt from its
 * class-level and method-level mapping annotations, normalised, and looked up in a fixed
 * allow-list; a path not in the list is answered with an error instead of running the method.
 */
module Permission {
  import opened Wrappers

  /** The allow-list, compared literally (a `{id}` placeholder is matched as written). */
  const ALLOWED_PATHS: seq<string> := ["/ts/search", "/other/allowed/path", "/admin/employee/{id}"]
  const DENIED_MSG: string := "权限不足，禁止访问"

  /** `replaceAll("^/+", "")`: drop the run of slashes at the front, keep the rest. */
  function StripLeadingSlashes(s: string): (r: string)
    ensures |r| <= |s| && r == s[|s| - |r|..]
    ensures forall i :: 0 <= i < |s| - |r| ==> s[i] == '/'
    ensures r != [] ==> r[0] != '/'
    decreases |s|
  {
    if s != [] && s[0] == '/' then
      var r := StripLeadingSlashes(s[1..]);
      assert s[1..][|s| - 1 - |r|..] == s[|s| - |r|..];
      r
    else s
  }

  /** `replaceAll("/+$", "")`: drop the run of slashes at the end, keep the rest. */
  function StripTrailingSlashes(s: string): (r: string)
    ensures |r| <= |s| && r == s[..|r|]
    ensures forall i :: |r| <= i < |s| ==> s[i] == '/'
    ensures r != [] ==> r[|r| - 1] != '/'
    decreases |s|
  {
    if s != [] && s[|s| - 1] == '/' then
      var r := StripTrailingSlashes(s[..|s| - 1]);
      assert s[..|s| - 1][..|r|] == s[..|r|];
      r
    else s
  }

  /**
   * Both ends stripped, leading run first, as `normalizePath` does to each part: the result has
   * no slash at either end.
   */
  function Trim(s: string): (r: string)
    ensures |r| <= |s|
    ensures r != [] ==> r[0] != '/' && r[|r| - 1] != '/'
  {
    var l := StripLeadingSlashes(s);
    var r := StripTrailingSlashes(l);
    assert r != [] ==> r[0] == l[0];
    r
  }

  /** A part trims to nothing exactly when it is all slashes. */
  lemma TrimAllSlashes(s: string)
    ensures Trim(s) == [] <==> forall i :: 0 <= i < |s| ==> s[i] == '/'
  {
    var l := StripLeadingSlashes(s);
    if Trim(s) == [] {
      assert l == [];
    }
  }

  /** `filter(s -> !s.isEmpty())`. */
  function NonEmpty(parts: seq<string>): (r: seq<string>)
    ensures forall i :: 0 <= i < |r| ==> r[i] != []
    ensures forall p :: p in r <==> p in parts && p != []
    decreases |parts|
  {
    if parts == [] then []
    else (if parts[0] == [] then [] else [parts[0]]) + NonEmpty(parts[1..])
  }

  /** `Collectors.joining("/")`: the first part, then a slash, ..., the last part. */
  function JoinSlash(parts: seq<string>): (r: string)
    ensures parts == [] ==> r == []
    ensures |parts| == 1 ==> r == parts[0]
    ensures |parts| > 1 ==> |r| >= |parts[0]| + 1 && r[|parts[0]|] == '/'
    decreases |parts|
  {
    if parts == [] then []
    else if |parts| == 1 then parts[0]
    else parts[0] + "/" + JoinSlash(parts[1..])
  }

  /**
   * `normalizePath`: both parts trimmed of slashes at either end, the non-empty ones joined under
   * one leading slash.
   */
  function NormalizePath(classPath: string, methodPath: string): (p: string)
    ensures |p| >= 1 && p[0] == '/'
  {
    "/" + JoinSlash(NonEmpty([Trim(classPath), Trim(methodPath)]))
  }

  /** `getClassPath`: the first value of the class `@RequestMapping` without trailing slashes, or "". */
  function GetClassPath(classMapping: Option<seq<string>>): (p: string)
    ensures classMapping.None? || classMapping.value == [] ==> p == ""
    ensures classMapping.Some? && classMapping.value != [] ==> p == StripTrailingSlashes(classMapping.value[0])
  {
    if classMapping.Some? && |classMapping.value| > 0 then StripTrailingSlashes(classMapping.value[0]) else ""
  }

  /** First value of a mapping annotation, when it is present and has one. */
  predicate HasValue(m: Option<seq<string>>) {
    m.Some? && |m.value| > 0
  }

  /** `getMethodPath`: the first value of `@GetMapping`, else of `@PostMapping`, else of `@RequestMapping`, else "". */
  function GetMethodPath(getMapping: Option<seq<string>>, postMapping: Option<seq<string>>, reqMapping: Option<seq<string>>): (p: string)
    ensures HasValue(getMapping) ==> p == getMapping.value[0]
    ensures !HasValue(getMapping) && HasValue(postMapping) ==> p == postMapping.value[0]
    ensures !HasValue(getMapping) && !HasValue(postMapping) && HasValue(reqMapping) ==> p == reqMapping.value[0]
    ensures !HasValue(getMapping) && !HasValue(postMapping) && !HasValue(reqMapping) ==> p == ""
  {
    if HasValue(getMapping) then getMapping.value[0]
    else if HasValue(postMapping) then postMapping.value[0]
    else if HasValue(reqMapping) then reqMapping.value[0]
    else ""
  }

  /** The annotations of the intercepted controller method and of its class. */
  datatype Mappings = Mappings(
    classMapping: Option<seq<string>>,
    getMapping: Option<seq<string>>,
    postMapping: Option<seq<string>>,
    reqMapping: Option<seq<string>>)

  /** `buildFullPath`: the normal form of the class and method paths, one slash in front and none at the end. */
  function BuildFullPath(j: Mappings): (p: string)
    ensures |p| >= 1 && p[0] == '/'
    ensures |p| > 1 ==> p[1] != '/' && p[|p| - 1] != '/'
  {
    var c, m := GetClassPath(j.classMapping), GetMethodPath(j.getMapping, j.postMapping, j.reqMapping);
    NormalizeShape(c, m);
    NormalizePath(c, m)
  }

  /** What the advice does: run the method, or answer with the error instead. */
  datatype Verdict = Proceed | Denied(msg: string)

  /** `checkPermission`: only a path in the allow-list proceeds. */
  function CheckPermission(j: Mappings): (v: Verdict)
    ensures v == Proceed <==> BuildFullPath(j) in ALLOWED_PATHS
    ensures v != Proceed ==> v == Denied(DENIED_MSG)
  {
    if BuildFullPath(j) !in ALLOWED_PATHS then Denied(DENIED_MSG) else Proceed
  }

  // ---------------------------------------------------------------- properties of the normal form

  /** A string with no slash at either end trims to itself. */
  lemma TrimUnslashed(s: string)
    requires s != [] ==> s[0] != '/' && s[|s| - 1] != '/'
    ensures Trim(s) == s
  {
    if s != [] {
      assert StripLeadingSlashes(s) == s;
      assert StripTrailingSlashes(s) == s;
    }
  }

  /** Trimming twice is trimming once. */
  lemma TrimIdempotent(s: string)
    ensures Trim(Trim(s)) == Trim(s)
  {
    TrimUnslashed(Trim(s));
  }

  /** A slash more at the front does not change the trimmed part. */
  lemma TrimExtraLeadingSlash(s: string)
    ensures Trim("/" + s) == Trim(s)
  {
    assert ("/" + s)[1..] == s;
  }

  /** Stripping the front commutes with a slash appended at the end, unless nothing but slashes is left. */
  lemma {:induction false} StripLeadingAppendSlash(s: string)
    ensures StripLeadingSlashes(s + "/") ==
      if StripLeadingSlashes(s) == [] then [] else StripLeadingSlashes(s) + "/"
    decreases |s|
  {
    if s == [] {
    } else if s[0] == '/' {
      assert (s + "/")[1..] == s[1..] + "/";
      StripLeadingAppendSlash(s[1..]);
    } else {
    }
  }

  /** A slash appended at the end is stripped again. */
  lemma StripTrailingAppendSlash(s: string)
    ensures StripTrailingSlashes(s + "/") == StripTrailingSlashes(s)
  {
    assert (s + "/")[..|s + "/"| - 1] == s;
  }

  /** A slash more at the end does not change the trimmed part. */
  lemma TrimExtraTrailingSlash(s: string)
    ensures Trim(s + "/") == Trim(s)
  {
    StripLeadingAppendSlash(s);
    if StripLeadingSlashes(s) != [] {
      StripTrailingAppendSlash(StripLeadingSlashes(s));
    }
  }

  /** The normal form of two parts, case by case: empty parts vanish, the rest are joined by one slash. */
  lemma NormalizeCases(c: string, m: string)
    ensures Trim(c) == [] && Trim(m) == [] ==> NormalizePath(c, m) == "/"
    ensures Trim(c) != [] && Trim(m) == [] ==> NormalizePath(c, m) == "/" + Trim(c)
    ensures Trim(c) == [] && Trim(m) != [] ==> NormalizePath(c, m) == "/" + Trim(m)
    ensures Trim(c) != [] && Trim(m) != [] ==> NormalizePath(c, m) == "/" + Trim(c) + "/" + Trim(m)
  {
    var a, b := Trim(c), Trim(m);
    NonEmptyPair(a, b);
    if a != [] && b != [] {
      assert NonEmpty([a, b]) == [a, b];
      assert [a, b][1..] == [b];
      assert JoinSlash([a, b]) == a + "/" + b;
    }
  }

  lemma NonEmptyPair(a: string, b: string)
    ensures NonEmpty([a, b]) == (if a == [] then [] else [a]) + (if b == [] then [] else [b])
  {
    assert [a, b][1..] == [b];
    assert [b][1..] == [];
    assert NonEmpty([b]) == (if b == [] then [] else [b]) + NonEmpty([]);
    assert NonEmpty([a, b]) == (if a == [] then [] else [a]) + NonEmpty([b]);
  }

  /** Joining two parts with no slash at their ends gives text with no slash at its ends, empty only when both are. */
  lemma JoinedShape(a: string, b: string)
    requires a != [] ==> a[0] != '/' && a[|a| - 1] != '/'
    requires b != [] ==> b[0] != '/' && b[|b| - 1] != '/'
    ensures var x := JoinSlash(NonEmpty([a, b]));
      && (x == [] <==> a == [] && b == [])
      && (x != [] ==> x[0] != '/' && x[|x| - 1] != '/')
  {
    NonEmptyPair(a, b);
    var x := JoinSlash(NonEmpty([a, b]));
    if a != [] && b != [] {
      assert [a, b][1..] == [b];
      assert x == a + "/" + b;
      assert x[0] == a[0] && x[|x| - 1] == b[|b| - 1];
    }
  }

  /**
   * The normal form starts with a slash, never has a second slash at the front or one at the end
   * (other than the bare "/"), and is "/" exactly when both parts consist only of slashes.
   */
  lemma NormalizeShape(c: string, m: string)
    ensures var p := NormalizePath(c, m);
      && p[0] == '/'
      && (|p| > 1 ==> p[1] != '/' && p[|p| - 1] != '/')
      && (p == "/" <==> (forall i :: 0 <= i < |c| ==> c[i] == '/') && (forall i :: 0 <= i < |m| ==> m[i] == '/'))
  {
    TrimAllSlashes(c);
    TrimAllSlashes(m);
    JoinedShape(Trim(c), Trim(m));
    var x := JoinSlash(NonEmpty([Trim(c), Trim(m)]));
    var p := NormalizePath(c, m);
    assert p == "/" + x;
    if x != [] {
      assert p[1] == x[0] && p[|p| - 1] == x[|x| - 1];
    }
  }

  /** Normalising a normal form again, as a class path alone or as a method path alone, gives it back. */
  lemma NormalizeIdempotent(c: string, m: string)
    ensures var p := NormalizePath(c, m);
      NormalizePath(p, "") == p && NormalizePath("", p) == p
  {
    var p := NormalizePath(c, m);
    var rest := p[1..];
    assert p == "/" + rest;
    NormalizeShape(c, m);
    TrimExtraLeadingSlash(rest);
    TrimUnslashed(rest);
    NormalizeCases(p, "");
    NormalizeCases("", p);
  }

  /** Extra slashes at either end of either part do not change the normal form. */
  lemma NormalizeIgnoresOuterSlashes(c: string, m: string)
    ensures NormalizePath("/" + c, m) == NormalizePath(c, m)
    ensures NormalizePath(c + "/", m) == NormalizePath(c, m)
    ensures NormalizePath(c, "/" + m) == NormalizePath(c, m)
    ensures NormalizePath(c, m + "/") == NormalizePath(c, m)
  {
    TrimExtraLeadingSlash(c);
    TrimExtraTrailingSlash(c);
    TrimExtraLeadingSlash(m);
    TrimExtraTrailingSlash(m);
  }

  /** A part with no slash at either end is kept as written, its inner slashes included: no run of slashes is collapsed. */
  lemma NormalizeKeepsInnerSlashes(s: string)
    requires s != [] && s[0] != '/' && s[|s| - 1] != '/'
    ensures NormalizePath(s, "") == "/" + s
    ensures NormalizePath("", s) == "/" + s
  {
    TrimUnslashed(s);
    TrimUnslashed("");
    NormalizeCases(s, "");
    NormalizeCases("", s);
  }

  /** "a//b" keeps its double slash. */
  lemma InnerSlashExample()
    ensures NormalizePath("a//b", "") == "/a//b"
  {
    var s := "a//b";
    NormalizeKeepsInnerSlashes(s);
    assert "/" + s == "/a//b";
  }

  /** `@RequestMapping("/admin/employee/")` gives the class path "/admin/employee". */
  lemma ClassPathExample()
    ensures GetClassPath(Some(["/admin/employee/"])) == "/admin/employee"
  {
    var classPath := "/admin/employee";
    StripTrailingAppendSlash(classPath);
    assert classPath + "/" == "/admin/employee/";
    assert StripTrailingSlashes(classPath) == classPath;
  }

  /** Two parts each written with one leading slash join as written; the class part alone is kept. */
  lemma SlashedParts(a: string, b: string)
    requires a != [] && a[0] != '/' && a[|a| - 1] != '/'
    requires b != [] && b[0] != '/' && b[|b| - 1] != '/'
    ensures NormalizePath("/" + a, "/" + b) == "/" + a + "/" + b
    ensures NormalizePath("/" + a, "") == "/" + a
  {
    TrimExtraLeadingSlash(a);
    TrimUnslashed(a);
    TrimExtraLeadingSlash(b);
    TrimUnslashed(b);
    TrimUnslashed("");
    NormalizeCases("/" + a, "/" + b);
    NormalizeCases("/" + a, "");
  }

  /** Joined with "/{id}" the class path gives "/admin/employee/{id}"; alone it gives itself. */
  lemma NormalFormExample()
    ensures NormalizePath("/admin/employee", "/{id}") == "/admin/employee/{id}"
    ensures NormalizePath("/admin/employee", "") == "/admin/employee"
  {
    var a, b := "admin/employee", "{id}";
    SlashedParts(a, b);
    assert "/" + a == "/admin/employee" && "/" + b == "/{id}";
    assert "/" + a + "/" + b == "/admin/employee/{id}";
  }

  /**
   * `@RequestMapping("/admin/employee/")` on the class and `@GetMapping("/{id}")` on the method
   * give "/admin/employee/{id}", which is allowed.
   */
  lemma AllowedExample()
    ensures CheckPermission(Mappings(Some(["/admin/employee/"]), Some(["/{id}"]), None, None)) == Proceed
  {
    var j := Mappings(Some(["/admin/employee/"]), Some(["/{id}"]), None, None);
    ClassPathExample();
    NormalFormExample();
    assert GetMethodPath(j.getMapping, j.postMapping, j.reqMapping) == "/{id}";
    assert BuildFullPath(j) == "/admin/employee/{id}";
    assert ALLOWED_PATHS[2] == "/admin/employee/{id}";
  }

  /** The same class without a method mapping gives "/admin/employee", which is refused. */
  lemma DeniedExample()
    ensures CheckPermission(Mappings(Some(["/admin/employee/"]), None, None, None)) == Denied(DENIED_MSG)
  {
    ClassPathExample();
    NormalFormExample();
    ClassPathNotAllowed();
  }

  lemma ClassPathNotAllowed()
    ensures "/admin/employee" !in ALLOWED_PATHS
  {
    assert forall p :: p in ALLOWED_PATHS ==> |p| != 15;
  }
}
