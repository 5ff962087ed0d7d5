# Site URL joining, modelled in Dafny

The repository is a static blog whose one piece of logic is `siteUrl`
(src/utils/url.ts): it joins the deployment base path (`BASE_URL`) with a
site-relative path. It gives the base a trailing `/` if it lacks one,
drops one leading `/` from the path if it has one, and concatenates the
two. This project models that function over `seq<char>` and proves what
it promises: prefix, suffix and length laws, that both documented
`BASE_URL` forms agree, that one leading slash on the path is ignored, how
far the "exactly one slash" comment really holds, and the documented
usage examples.

Layout:

- `js_string.dfy`, module `JsString`: the ECMAScript string built-ins the
  function calls (`startsWith`, `endsWith`, `slice`). `startsWith` and
  `endsWith` compare one character at a time, and their contracts tie them
  to Dafny's prefix and suffix.
- `url.dfy`, module `Url`: `NormalizeBase` (line 22), `StripLeadingSlash`
  (line 23), `SiteUrl` (lines 19-25), and lemmas about them.
- `url_examples.dfy`, module `UrlExamples`: the usage examples from the
  doc comment, as concrete lemmas.

The ambient read of `import.meta.env.BASE_URL` (src/utils/url.ts:20) is
replaced by an explicit `base` parameter: `SiteUrl(base, path)`.

## Model

| member | source | states |
|---|---|---|
| JsString.StartsWith | src/utils/url.ts:23 | `path.startsWith('/')`: true exactly when the searched string is a prefix of the subject |
| JsString.EndsWith | src/utils/url.ts:22 | `base.endsWith('/')`: true exactly when the searched string is the subject's last characters |
| JsString.Slice | src/utils/url.ts:23 | `slice(start)` returns a suffix of the subject. For `0 <= start <= length` it has `length - start` characters; a start past the end gives `""`; a negative start counts from the end and is clamped |
| Url.NormalizeBase | src/utils/url.ts:22 | the normalised base ends in `/`, extends the base by at most one character, and equals the base exactly when the base already ended in `/` |
| Url.StripLeadingSlash | src/utils/url.ts:23 | if the path starts with `/`, it is `"/"` followed by the result (one slash removed, never more); otherwise the result is the path unchanged, and conversely |
| Url.SiteUrl | src/utils/url.ts:19-25 | the base and the normalised base are prefixes of the URL, and that normalised-base prefix ends in `/`. Length law: base length, plus 1 if the base lacks a trailing slash, plus path length, minus 1 if the path has a leading slash |
| Url.SiteRelative | src/utils/url.ts:1-3 | the URL starts with `/` (is site-relative) exactly when the base is empty or starts with `/` |
| Url.PathIsSuffix | src/utils/url.ts:23-24 | the path, less one leading slash if it has one, is a suffix of the URL |
| Url.EmptyPathGivesBase | src/utils/url.ts:22-24 | an empty path yields the normalised base, which ends in `/`; the base comes back unchanged exactly when it already ended in `/` |
| Url.NormalizeBaseIdempotent | src/utils/url.ts:22 | normalising the base twice equals normalising once; joining with the normalised base equals joining with the raw base |
| Url.BaseFormsAgree | src/utils/url.ts:22 | `SiteUrl(x, p) == SiteUrl(x + "/", p)` holds exactly when `x` does not end in `/`, so `/name` and `/name/` give the same URLs |
| Url.LeadingSlashIgnored | src/utils/url.ts:23 | `SiteUrl(b, q) == SiteUrl(b, "/" + q)` holds exactly when `q` does not itself start with `/` |
| Url.Junction | src/utils/url.ts:21-23 | the character before the path part is always `/`, and the one before that is `/` exactly when the base ends in `//`. The character after it is not `/` (or the URL ends there) exactly when the path does not begin with `//` |
| Url.PathInjective | src/utils/url.ts:23-24 | for a fixed base, two paths give the same URL exactly when they are equal once one leading slash is stripped |
| Url.BaseInjective | src/utils/url.ts:22-24 | for a fixed path, two bases give the same URL exactly when their normalised forms are equal |
| Url.StripAppend | src/utils/url.ts:23 | stripping the leading slash of a non-empty path commutes with appending to that path |
| Url.DirUrlIsBase | src/utils/url.ts:22-24 | a URL built from an empty path or a path ending in `/` ends in `/`, so normalising it as a base leaves it unchanged |
| Url.JoinUnderDir | src/utils/url.ts:22-24 | a URL built from a path ending in `/`, used as the base for a further path with no leading slash, equals the single join of the concatenated path |
| Url.NestedJoin | src/utils/url.ts:22-24 | a URL built from an empty or `/`-terminated directory path, used as the base for a further path with no leading slash, equals the single join of the concatenated path |
| UrlExamples.SubPathBase | src/utils/url.ts:5-7 | both documented `BASE_URL` forms, `/test-repo/` and `/test-repo`, normalise to `/test-repo/` |
| UrlExamples.BlogUnderSubPath | src/utils/url.ts:10 | `/test-repo/` and `/test-repo` with `blog` give `/test-repo/blog` |
| UrlExamples.PostUnderSubPath | src/utils/url.ts:11 | `/test-repo/` and `/test-repo` with `blog/my-post` give `/test-repo/blog/my-post` |
| UrlExamples.AssetUnderSubPath | src/utils/url.ts:12 | `/test-repo/` and `/test-repo` with `favicon.svg` give `/test-repo/favicon.svg` |
| UrlExamples.HomeUnderSubPath | src/utils/url.ts:13 | `/test-repo/` and `/test-repo` with `""` give `/test-repo/` |
| UrlExamples.BlogAtRoot | src/utils/url.ts:16 | `""` with `blog`, and with `/blog`, gives `/blog`; so does `/` with `blog` |
| UrlExamples.HomeAtRoot | src/utils/url.ts:17 | `""` with `""` gives `/`, and so does `/` with `""` |
| UrlExamples.DoubleSlashKept | src/utils/url.ts:21-23 | `/test-repo/` with `//blog` gives `/test-repo//blog`: only one leading slash is stripped |
| UrlExamples.BaseDoubleSlashKept | src/utils/url.ts:21-22 | `/a//` with `b` gives `/a//b`: a base ending in `//` is not shortened |

## Left out

- Reading `import.meta.env.BASE_URL` (src/utils/url.ts:20): this is framework configuration, so it is the explicit `base` parameter here.
- Url.Junction: the code comment on line 21 says there is exactly one slash between base and path, but that holds only when the path does not begin with `//` and the base does not end in `//`. The lemma states that real extent, and `UrlExamples.DoubleSlashKept` and `UrlExamples.BaseDoubleSlashKept` show the two exceptions. No other slash in the base or path is normalised.
- Url.SiteRelative: the doc comment on lines 1-3 promises a site-relative URL, but the function itself does not add a leading `/`. The promise holds only when the framework supplies a `BASE_URL` that is empty or starts with `/`. A raw value such as `test-repo` gives `test-repo/blog`. How the framework derives `BASE_URL` is not part of this model.
- JsString.StartsWith, JsString.EndsWith, JsString.Slice: ECMAScript strings are sequences of UTF-16 code units, while these work on Dafny `char`s, which are Unicode scalar values; surrogate pairs are not modelled. `startsWith`/`endsWith` are modelled without the optional position argument, and `slice` with an integer start only (no end argument and no `ToIntegerOrInfinity` conversion), because the source uses only those forms.
- astro.config.mjs: it reads `SITE_BASE` with a `''` default and hands it to the Astro framework. How Astro turns that into `BASE_URL` happens inside the framework, and the framework is not part of this model.
- src/content/config.ts: the blog-post schema is a declaration evaluated by the Zod and Astro libraries. That covers the `max(160)` limit, date coercion and the `draft`/`tags` defaults. Those libraries are not part of this model.
