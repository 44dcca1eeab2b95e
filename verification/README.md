# WebSite data-source configuration check

A Dafny model of the `config` part of `WebSiteSourceSchema` in
`components/DatasourceForms/WebSiteForm.tsx`. A web-site data source is set up from two
optional strings: `source`, the web-site URL to crawl, and `sitemap`, the URL of a
sitemap. The schema trims both fields. Then one refinement decides whether the
configuration is acceptable:

- a non-empty `sitemap` is checked first, and it must be a URL;
- only when `sitemap` is empty or undefined is a non-empty `source` checked, and it must be a URL;
- when both are empty, the configuration is rejected with the message
  "You must provide either a web site URL or a sitemap URL" and the path array
  `['config.sitemap', 'config.source']` given at line 47.

Modules:

- `Results`: `Option` (a field that may be `undefined`) and `Result` (the outcome of parsing).
- `Trimming`: removal of leading and trailing white space for any white-space predicate.
  It includes the lemmas that characterise trimming: padding round trip, idempotence, and empty exactly for blank strings.
- `JsString`: JavaScript's `String.prototype.trim`. It is the `Trimming` function over the white-space set of ECMA-262
  (sections 12.2 and 12.3: TAB, VT, FF, ZWNBSP, the Unicode Zs characters, LF, CR, LS, PS).
- `WebSiteConfig`: the configuration record, the error values and the schema itself.
  The schema is built from `Normalize` (the trimming object step), `Refinement` (the callback, as written) and `Validate`.
  This module also holds the lemmas that restate the rule on the raw input.

zod's `.url()` check cannot be seen from this file. Every operation therefore takes it as a
parameter `isUrl: string -> bool`, and every property holds for any such predicate.

Two details of the code that the model keeps:

- On success the output holds the trimmed strings as they are. A blank field stays the empty string (`Some("")`)
  and does not become `undefined`. Only the decision treats it as absent, through JavaScript truthiness.
- A malformed URL makes `.parse(…, { path })` throw inside the refinement callback. The callback does not return `false`.
  The model turns the throw into the result `MalformedUrl(path)`, with the path given at that call.

## Model

| member | source | states |
|---|---|---|
| Trimming.LeadingCount | components/DatasourceForms/WebSiteForm.tsx:22-23 | the leading white space that trimming removes: every character before the count is white space, and the one at the count is not |
| Trimming.TrailingCount | components/DatasourceForms/WebSiteForm.tsx:22-23 | the trailing white space that trimming removes: every character after the cut is white space, and the one before it is not |
| Trimming.Trim | components/DatasourceForms/WebSiteForm.tsx:22-23 | a trimmed value neither starts nor ends with white space, and the input is that value with only white space added on each side |
| Trimming.TrimOfPadded | components/DatasourceForms/WebSiteForm.tsx:22-23 | trimming undoes any white-space padding of a string that has no white space at either end |
| Trimming.TrimIdempotent | components/DatasourceForms/WebSiteForm.tsx:22-23 | trimming an already trimmed field changes nothing |
| Trimming.TrimEmptyIff | components/DatasourceForms/WebSiteForm.tsx:22-27 | a field trims to the empty (falsy) string exactly when it is made only of white space |
| JsString.JsTrimSpacesExample | components/DatasourceForms/WebSiteForm.tsx:22 | `"   https://example.com/   "` trims to `"https://example.com/"` |
| JsString.JsTrimUnicodeExample | components/DatasourceForms/WebSiteForm.tsx:22 | non-ASCII white space (ideographic space, no-break space, line separator) is trimmed too |
| JsString.JsTrim | components/DatasourceForms/WebSiteForm.tsx:22-23 | `trim()` leaves no JavaScript white space at either end, and gives the empty string exactly for a white-space-only input |
| WebSiteConfig.TrimField | components/DatasourceForms/WebSiteForm.tsx:22-23 | `.trim().optional()` keeps an undefined field undefined and leaves a string with no white space at either end |
| WebSiteConfig.Normalize | components/DatasourceForms/WebSiteForm.tsx:20-24 | the object step keeps which fields are defined; a trimmed field is truthy exactly when the raw field held a non-white-space character |
| WebSiteConfig.ParseUrl | components/DatasourceForms/WebSiteForm.tsx:28-40 | `z.string().url().parse(s, { path })` gives back exactly `s` when it is a URL, and otherwise fails with a malformed-URL error on the path it was given |
| WebSiteConfig.Refinement | components/DatasourceForms/WebSiteForm.tsx:26-44 | the callback returns false exactly when both trimmed fields are falsy; with a truthy sitemap it returns true exactly when the sitemap is a URL and otherwise throws on `config.sitemap`; with a falsy sitemap and a truthy source it returns true exactly when the source is a URL and otherwise throws on `config.source` |
| WebSiteConfig.Validate | components/DatasourceForms/WebSiteForm.tsx:19-50 | acceptance returns both fields trimmed and otherwise unchanged; acceptance implies the sitemap is a URL, or the sitemap is empty and the source is a URL; every rejection carries a non-empty path array whose every element is `config.sitemap` or `config.source` |
| WebSiteConfig.EmptyConfigIffBlank | components/DatasourceForms/WebSiteForm.tsx:26-48 | the rejection with the fixed message and the line-47 path array `['config.sitemap', 'config.source']` happens exactly when both fields are absent or white space only |
| WebSiteConfig.SitemapPriority | components/DatasourceForms/WebSiteForm.tsx:27-33 | a supplied sitemap that is a URL once trimmed is accepted, whatever `source` holds |
| WebSiteConfig.MalformedSitemap | components/DatasourceForms/WebSiteForm.tsx:27-34 | a supplied sitemap that is not a URL is rejected on `config.sitemap`, even when `source` is a valid URL |
| WebSiteConfig.SourceFallback | components/DatasourceForms/WebSiteForm.tsx:34-40 | with a blank or absent sitemap, a supplied source is accepted if it is a URL and rejected on `config.source` if not |
| WebSiteConfig.ValidateByGoverning | components/DatasourceForms/WebSiteForm.tsx:26-43 | acceptance holds exactly when the governing field (the sitemap if supplied, else the source) is a URL once trimmed; a rejection when a governing field exists is scoped to that field |
| WebSiteConfig.SourceNeverExamined | components/DatasourceForms/WebSiteForm.tsx:27-34 | with a sitemap supplied, changing `source`, or the URL check on any other string, changes neither the decision nor the error |
| WebSiteConfig.BlankSitemapIsAbsent | components/DatasourceForms/WebSiteForm.tsx:22-34 | a white-space-only sitemap gives the same decision and error as an undefined one; the output keeps it as `""` |
| WebSiteConfig.BlankSourceIsAbsent | components/DatasourceForms/WebSiteForm.tsx:22-43 | a white-space-only source gives the same decision and error as an undefined one; the output keeps it as `""` |
| WebSiteConfig.ValidateNormalized | components/DatasourceForms/WebSiteForm.tsx:20-25 | validating the trimmed record gives exactly the outcome of validating the raw one |
| WebSiteConfig.ValidateIdempotent | components/DatasourceForms/WebSiteForm.tsx:19-50 | an accepted output, validated again, is accepted unchanged |
| WebSiteConfig.PaddedSourceExample | components/DatasourceForms/WebSiteForm.tsx:22-40 | `{source: "   https://example.com/   "}` is accepted as `{source: "https://example.com/"}` |

## Left out

- The inherited base fields `name`, `type` and `project` (`UpsertDatasourceSchema`, line 19). They are defined in `types/models`, which is not part of this model.
- zod's `.url()` check: it is the parameter `isUrl`, not a URL parser.
- Non-string field values (`null`, numbers), and zod's removal of unknown keys. The input type has only an undefined-or-string `source` and `sitemap`.
- How zod builds and merges a `ZodError` (issue codes, default messages, path arrays). Only the outcome is modelled. The outcome is the rejection message and path array of lines 46-47, or the path of the throwing `parse`.
- The path array of line 47 is kept as the literal two-element array and read as two field paths. zod reads a refinement's `path` as ONE key path appended to the refinement's own path, so the issue it reports sits at `config` › `config.sitemap` › `config.source`, which is neither input. The model does not follow that key-path reading; it does not model how zod places issues in the form.
- JavaScript strings are UTF-16. The model uses Unicode scalar values, so unpaired surrogates cannot be written. Every character that `trim` removes is in the Basic Multilingual Plane, so trimming is unaffected.
- The React components `Nested` and `WebSiteForm` (lines 52-105): rendering and form binding only.
- The "45s max" crawl time and "500 pages max" sitemap cap (lines 66, 83): help text for the ingestion that runs later. Nothing here enforces them.
- The unused `findDomainPages` import (line 12): it crawls over the network.
- Determinism is not stated as a lemma. `Validate` is a Dafny function, so equal inputs give equal results by construction.
