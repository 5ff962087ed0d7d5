/** The usage examples documented on `siteUrl`, for a sub-path deployment
    (both `BASE_URL` forms) and for a root deployment, plus the two cases the
    single-slash guarantee does not cover. */
module UrlExamples {
  import opened Url

  /** Both `BASE_URL` forms of the sub-path deployment normalise alike. */
  lemma SubPathBase()
    ensures NormalizeBase("/test-repo/") == "/test-repo/"
    ensures NormalizeBase("/test-repo") == "/test-repo/"
  {
    assert "/test-repo" + "/" == "/test-repo/";
  }

  lemma BlogUnderSubPath()
    ensures SiteUrl("/test-repo/", "blog") == "/test-repo/blog"
    ensures SiteUrl("/test-repo", "blog") == "/test-repo/blog"
  {
    SubPathBase();
    assert StripLeadingSlash("blog") == "blog";
  }

  lemma PostUnderSubPath()
    ensures SiteUrl("/test-repo/", "blog/my-post") == "/test-repo/blog/my-post"
    ensures SiteUrl("/test-repo", "blog/my-post") == "/test-repo/blog/my-post"
  {
    SubPathBase();
    assert StripLeadingSlash("blog/my-post") == "blog/my-post";
  }

  lemma AssetUnderSubPath()
    ensures SiteUrl("/test-repo/", "favicon.svg") == "/test-repo/favicon.svg"
    ensures SiteUrl("/test-repo", "favicon.svg") == "/test-repo/favicon.svg"
  {
    SubPathBase();
    assert StripLeadingSlash("favicon.svg") == "favicon.svg";
  }

  lemma HomeUnderSubPath()
    ensures SiteUrl("/test-repo/", "") == "/test-repo/"
    ensures SiteUrl("/test-repo", "") == "/test-repo/"
  {
    SubPathBase();
    assert StripLeadingSlash("") == "";
  }

  lemma BlogAtRoot()
    ensures SiteUrl("", "blog") == "/blog"
    ensures SiteUrl("", "/blog") == "/blog"
    ensures SiteUrl("/", "blog") == "/blog"
  {
  }

  lemma HomeAtRoot()
    ensures SiteUrl("", "") == "/"
    ensures SiteUrl("/", "") == "/"
  {
  }

  /** A path that begins with `//` keeps one of its slashes, so the result
      has a double slash at the junction. */
  lemma DoubleSlashKept()
    ensures SiteUrl("/test-repo/", "//blog") == "/test-repo//blog"
  {
  }

  /** A base that ends in `//` keeps both slashes, so the result has a
      double slash before the path. */
  lemma BaseDoubleSlashKept()
    ensures SiteUrl("/a//", "b") == "/a//b"
  {
  }
}
