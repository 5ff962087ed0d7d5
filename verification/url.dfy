/** `siteUrl` from src/utils/url.ts: join the deployment base path with a
    site-relative path. The base gets a trailing `/` and the path loses at
    most one leading `/`; exactly one `/` separates them unless the path
    begins with `//` or the base ends in `//`.

    The source reads the base from the framework's `BASE_URL` setting; here
    it is the explicit parameter `base`. */
module Url {
  import JsString

  /** `s` ends in a slash (stated directly on the sequence). */
  predicate EndsWithSlash(s: string) {
    |s| > 0 && s[|s| - 1] == '/'
  }

  /** `s` begins with a slash (stated directly on the sequence). */
  predicate StartsWithSlash(s: string) {
    |s| > 0 && s[0] == '/'
  }

  /** `s` begins with two slashes. */
  predicate StartsWithDoubleSlash(s: string) {
    |s| >= 2 && s[0] == '/' && s[1] == '/'
  }

  /** `s` ends in two slashes. */
  predicate EndsWithDoubleSlash(s: string) {
    |s| >= 2 && s[|s| - 2] == '/' && s[|s| - 1] == '/'
  }

  /** The base with a trailing slash guaranteed: the shortest extension of
      `base` that ends in `/`. */
  function NormalizeBase(base: string): (b: string)
    ensures EndsWithSlash(b)
    ensures base <= b && |b| <= |base| + 1
    ensures b == base <==> EndsWithSlash(base)
  {
    if JsString.EndsWith(base, "/") then base else base + "/"
  }

  /** The path with one leading slash removed, if it has one. */
  function StripLeadingSlash(path: string): (p: string)
    ensures StartsWithSlash(path) <==> path == "/" + p
    ensures !StartsWithSlash(path) <==> p == path
  {
    if JsString.StartsWith(path, "/") then JsString.Slice(path, 1) else path
  }

  /** `siteUrl(path)` with `BASE_URL` passed as `base`. */
  function SiteUrl(base: string, path: string): (r: string)
    // the base, and the base with its trailing slash, lead the result
    ensures base <= r && NormalizeBase(base) <= r
    ensures EndsWithSlash(r[..|NormalizeBase(base)|])
    // length law
    ensures |r| == |base| + (if EndsWithSlash(base) then 0 else 1)
                  + |path| - (if StartsWithSlash(path) then 1 else 0)
  {
    var b := NormalizeBase(base);
    var p := StripLeadingSlash(path);
    b + p
  }

  /** The URL is site-relative (starts with `/`) exactly when the base is
      empty or itself starts with `/`. */
  lemma SiteRelative(base: string, path: string)
    ensures StartsWithSlash(SiteUrl(base, path)) <==> base == "" || StartsWithSlash(base)
  {
  }

  /** The path, less at most one leading slash, ends the result. */
  lemma PathIsSuffix(base: string, path: string)
    ensures StartsWithSlash(path) ==> JsString.IsSuffix(path[1..], SiteUrl(base, path))
    ensures !StartsWithSlash(path) ==> JsString.IsSuffix(path, SiteUrl(base, path))
  {
  }

  /** An empty path yields the normalised base, which ends in `/`; the
      base comes back unchanged exactly when it already ended in `/`. */
  lemma EmptyPathGivesBase(base: string)
    ensures SiteUrl(base, "") == NormalizeBase(base)
    ensures EndsWithSlash(SiteUrl(base, ""))
    ensures SiteUrl(base, "") == base <==> EndsWithSlash(base)
  {
  }

  /** Normalising the base twice is the same as normalising it once, and a
      base that is already normalised gives the same URLs. */
  lemma NormalizeBaseIdempotent(base: string, path: string)
    ensures NormalizeBase(NormalizeBase(base)) == NormalizeBase(base)
    ensures SiteUrl(NormalizeBase(base), path) == SiteUrl(base, path)
  {
  }

  /** The two `BASE_URL` forms `/name/` and `/name` give the same URLs;
      adding a slash to a base that already has one does change them. */
  lemma BaseFormsAgree(base: string, path: string)
    ensures SiteUrl(base, path) == SiteUrl(base + "/", path) <==> !EndsWithSlash(base)
  {
  }

  /** A single leading slash on the path makes no difference; a second one
      does. */
  lemma LeadingSlashIgnored(base: string, path: string)
    ensures SiteUrl(base, path) == SiteUrl(base, "/" + path) <==> !StartsWithSlash(path)
  {
  }

  /** The junction: the character just before the path part is always `/`;
      the one before that is `/` too exactly when the base ends in `//`; and
      the character just after it is not `/` (or there is none) exactly when
      the path does not begin with `//`. */
  lemma Junction(base: string, path: string)
    ensures var n := |NormalizeBase(base)|;
      var r := SiteUrl(base, path);
      && 0 < n <= |r|
      && r[n - 1] == '/'
      && (n >= 2 ==> (r[n - 2] == '/' <==> EndsWithDoubleSlash(base)))
      && ((n == |r| || r[n] != '/') <==> !StartsWithDoubleSlash(path))
  {
    var b, p := NormalizeBase(base), StripLeadingSlash(path);
    var r := SiteUrl(base, path);
    assert r == b + p;
    assert |b| >= 2 ==> r[|b| - 2] == b[|b| - 2];
    if !EndsWithSlash(base) {
      assert b == base + "/";
    }
    if StartsWithSlash(path) {
      assert p == path[1..];
    }
    if |p| > 0 {
      assert r[|b|] == p[0];
    }
  }

  /** For a fixed base, two paths give the same URL exactly when they agree
      once one leading slash is stripped. */
  lemma PathInjective(base: string, path1: string, path2: string)
    ensures SiteUrl(base, path1) == SiteUrl(base, path2)
        <==> StripLeadingSlash(path1) == StripLeadingSlash(path2)
  {
  }

  /** For a fixed path, two bases give the same URL exactly when they agree
      once each is given its trailing slash. */
  lemma BaseInjective(base1: string, base2: string, path: string)
    ensures SiteUrl(base1, path) == SiteUrl(base2, path)
        <==> NormalizeBase(base1) == NormalizeBase(base2)
  {
  }

  /** Stripping the leading slash only looks at the first character, so it
      commutes with appending to a non-empty path. */
  lemma StripAppend(dir: string, path: string)
    requires dir != ""
    ensures StripLeadingSlash(dir + path) == StripLeadingSlash(dir) + path
  {
  }

  /** A URL built from an empty path or a directory path ending in `/`
      ends in `/` itself, so it is its own normalised base. */
  lemma DirUrlIsBase(base: string, dir: string)
    requires dir == "" || EndsWithSlash(dir)
    ensures NormalizeBase(SiteUrl(base, dir)) == SiteUrl(base, dir)
  {
  }

  /** Joining in two steps through a directory URL: the directory path
      ends in `/` and the further path has no leading slash. */
  lemma JoinUnderDir(base: string, dir: string, path: string)
    requires EndsWithSlash(dir) && !StartsWithSlash(path)
    ensures SiteUrl(SiteUrl(base, dir), path) == SiteUrl(base, dir + path)
  {
    var b, d := NormalizeBase(base), StripLeadingSlash(dir);
    var u := SiteUrl(base, dir);
    DirUrlIsBase(base, dir);
    assert SiteUrl(u, path) == b + (d + path) by {
      assert u == b + d;
      assert StripLeadingSlash(path) == path;
    }
    assert SiteUrl(base, dir + path) == b + (d + path) by {
      StripAppend(dir, path);
    }
  }

  /** Joining in two steps is joining once: a URL built from a directory
      path (empty, or ending in `/`) serves as the base for a further
      relative path, provided that further path carries no leading slash
      the single join would keep. */
  lemma NestedJoin(base: string, dir: string, path: string)
    requires dir == "" || (EndsWithSlash(dir) && !StartsWithSlash(path))
    ensures SiteUrl(SiteUrl(base, dir), path) == SiteUrl(base, dir + path)
  {
    if dir == "" {
      assert dir + path == path;
      EmptyPathGivesBase(base);
      NormalizeBaseIdempotent(base, path);
    } else {
      JoinUnderDir(base, dir, path);
    }
  }
}
