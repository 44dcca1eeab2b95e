/** The `config` part of `WebSiteSourceSchema`: the web-site URL (`source`)
    and the sitemap URL (`sitemap`) of a web-site data source, trimmed and
    then checked by one refinement that decides which of the two governs.

    zod's `.url()` check is not modelled: it is the parameter `isUrl`. */
module WebSiteConfig {
  import opened Results
  import opened Trimming
  import opened JsString

  /** The `config` object; `None` is a field left `undefined`. */
  datatype Config = Config(source: Option<string>, sitemap: Option<string>)

  /** What the schema reports when it rejects a configuration. `paths` is
      the path array of the refinement as written, element by element. */
  datatype Error =
    | EmptyConfig(message: string, paths: seq<string>)
    | MalformedUrl(path: string)

  /** The two locator fields of the configuration. */
  datatype Field = Source | Sitemap

  const SitemapPath: string := "config.sitemap"
  const SourcePath: string := "config.source"
  const EmptyConfigMessage: string := "You must provide either a web site URL or a sitemap URL"

  function FieldPath(f: Field): string {
    match f
    case Source => SourcePath
    case Sitemap => SitemapPath
  }

  function FieldOf(c: Config, f: Field): Option<string> {
    match f
    case Source => c.source
    case Sitemap => c.sitemap
  }

  /** A field is supplied when it holds at least one character that is not
      white space. */
  predicate Supplied(o: Option<string>) {
    o.Some? && !AllWs(o.value, IsJsWhitespace)
  }

  /** The path array an error carries: for the empty configuration the
      array given to the refinement, `["config.sitemap", "config.source"]`;
      for a malformed URL the one-element array given to `parse`. Each
      element is read here as the dotted name of one field. */
  function ErrorPaths(e: Error): seq<string> {
    match e
    case EmptyConfig(_, paths) => paths
    case MalformedUrl(path) => [path]
  }

  // ---------------------------------------------------------------------
  // The schema, step by step
  // ---------------------------------------------------------------------

  /** `z.string().trim().optional()`: an undefined field stays undefined,
      a string is trimmed and keeps no white space at either end. */
  function TrimField(o: Option<string>): (r: Option<string>)
    ensures r.Some? <==> o.Some?
    ensures r.Some? ==> Tight(r.value, IsJsWhitespace) && |r.value| <= |o.value|
  {
    match o
    case None => None
    case Some(s) => Some(JsTrim(s))
  }

  /** The object step of the schema: both fields trimmed. Which fields are
      defined does not change, and a field is non-empty afterwards exactly
      when it held a character that is not white space. */
  function Normalize(raw: Config): (c: Config)
    ensures c.source.Some? <==> raw.source.Some?
    ensures c.sitemap.Some? <==> raw.sitemap.Some?
    ensures Truthy(c.source) <==> Supplied(raw.source)
    ensures Truthy(c.sitemap) <==> Supplied(raw.sitemap)
  {
    Config(TrimField(raw.source), TrimField(raw.sitemap))
  }

  /** JavaScript truthiness of a `string | undefined`. */
  predicate Truthy(o: Option<string>) {
    o.Some? && o.value != ""
  }

  /** `z.string().url().parse(s, { path: [path] })`: gives `s` back when it
      is a URL and throws an error scoped to `path` otherwise. */
  function ParseUrl(s: string, path: string, isUrl: string -> bool): (r: Result<string, Error>)
    ensures r.Success? <==> isUrl(s)
    ensures r.Success? ==> r.value == s
    ensures r.Failure? ==> r.error == MalformedUrl(path)
  {
    if isUrl(s) then Success(s) else Failure(MalformedUrl(path))
  }

  /** How the refinement callback ends: it returns a boolean or throws. */
  datatype Completion = Returned(accepted: bool) | Threw(error: Error)

  /** The refinement callback, on the already trimmed data: the sitemap
      first, the web-site URL only when the sitemap is falsy, and `false`
      when both are falsy. `!!` of a parsed URL is the truthiness of the
      string `parse` gave back. */
  function Refinement(data: Config, isUrl: string -> bool): (c: Completion)
    ensures c == Returned(false) <==> !Truthy(data.sitemap) && !Truthy(data.source)
    ensures c == Returned(true) ==>
              (Truthy(data.sitemap) && isUrl(data.sitemap.value))
              || (!Truthy(data.sitemap) && Truthy(data.source) && isUrl(data.source.value))
    ensures c.Threw? ==>
              c.error == MalformedUrl(if Truthy(data.sitemap) then SitemapPath else SourcePath)
    ensures Truthy(data.sitemap) ==>
              (c == Returned(true) <==> isUrl(data.sitemap.value))
              && (!isUrl(data.sitemap.value) ==> c == Threw(MalformedUrl(SitemapPath)))
    ensures !Truthy(data.sitemap) && Truthy(data.source) ==>
              (c == Returned(true) <==> isUrl(data.source.value))
              && (!isUrl(data.source.value) ==> c == Threw(MalformedUrl(SourcePath)))
  {
    if Truthy(data.sitemap) then
      match ParseUrl(data.sitemap.value, SitemapPath, isUrl)
      case Success(v) => Returned(v != "")
      case Failure(e) => Threw(e)
    else if Truthy(data.source) then
      match ParseUrl(data.source.value, SourcePath, isUrl)
      case Success(v) => Returned(v != "")
      case Failure(e) => Threw(e)
    else
      Returned(false)
  }

  /** Parsing `raw` against the `config` schema. A callback that returns
      `false` is reported with the refinement's own message and path array; one
      that throws, with the error it threw. On success the trimmed record
      is the output. */
  function Validate(raw: Config, isUrl: string -> bool): (r: Result<Config, Error>)
    ensures r.Success? ==>
              r.value.source == TrimField(raw.source) && r.value.sitemap == TrimField(raw.sitemap)
    ensures r.Success? ==>
              var sitemap := r.value.sitemap;
              var source := r.value.source;
              (Truthy(sitemap) && isUrl(sitemap.value))
              || (!Truthy(sitemap) && Truthy(source) && isUrl(source.value))
    ensures r.Failure? ==>
              |ErrorPaths(r.error)| > 0
              && forall p :: p in ErrorPaths(r.error) ==> p == SitemapPath || p == SourcePath
  {
    var data := Normalize(raw);
    match Refinement(data, isUrl)
    case Returned(accepted) =>
      if accepted then Success(data)
      else Failure(EmptyConfig(EmptyConfigMessage, [SitemapPath, SourcePath]))
    case Threw(e) => Failure(e)
  }

  // ---------------------------------------------------------------------
  // The rule stated on the raw input
  // ---------------------------------------------------------------------

  /** The field that decides the outcome: the sitemap when supplied, else
      the web-site URL when supplied. */
  function Governing(raw: Config): Option<Field> {
    if Supplied(raw.sitemap) then Some(Sitemap)
    else if Supplied(raw.source) then Some(Source)
    else None
  }

  /** Rejection with the fixed message and both paths happens exactly when
      neither field holds anything but white space. */
  lemma EmptyConfigIffBlank(raw: Config, isUrl: string -> bool)
    ensures Validate(raw, isUrl) == Failure(EmptyConfig(EmptyConfigMessage, [SitemapPath, SourcePath]))
            <==> !Supplied(raw.sitemap) && !Supplied(raw.source)
  {
  }

  /** A sitemap that is a URL once trimmed is accepted, whatever the
      web-site field holds. */
  lemma SitemapPriority(raw: Config, isUrl: string -> bool)
    requires Supplied(raw.sitemap) && isUrl(JsTrim(raw.sitemap.value))
    ensures Validate(raw, isUrl) == Success(Normalize(raw))
  {
  }

  /** A supplied sitemap that is not a URL is rejected on the sitemap path,
      whatever the web-site field holds. */
  lemma MalformedSitemap(raw: Config, isUrl: string -> bool)
    requires Supplied(raw.sitemap) && !isUrl(JsTrim(raw.sitemap.value))
    ensures Validate(raw, isUrl) == Failure(MalformedUrl(SitemapPath))
  {
  }

  /** Without a sitemap, a supplied web-site URL decides: accepted when it is
      a URL once trimmed, rejected on the web-site path otherwise. */
  lemma SourceFallback(raw: Config, isUrl: string -> bool)
    requires !Supplied(raw.sitemap) && Supplied(raw.source)
    ensures isUrl(JsTrim(raw.source.value)) ==> Validate(raw, isUrl) == Success(Normalize(raw))
    ensures !isUrl(JsTrim(raw.source.value)) ==> Validate(raw, isUrl) == Failure(MalformedUrl(SourcePath))
  {
  }

  /** The whole rule in terms of the governing field: acceptance exactly
      when the governing field is a URL once trimmed, and every rejection
      of a governing field is scoped to that field. */
  lemma ValidateByGoverning(raw: Config, isUrl: string -> bool)
    ensures Validate(raw, isUrl).Success? <==>
              Governing(raw).Some? && isUrl(JsTrim(FieldOf(raw, Governing(raw).value).value))
    ensures Governing(raw).Some? && Validate(raw, isUrl).Failure? ==>
              Validate(raw, isUrl).error == MalformedUrl(FieldPath(Governing(raw).value))
  {
  }

  /** With a sitemap supplied, neither the web-site field nor the URL check
      on any other string affects the decision. */
  lemma SourceNeverExamined(raw1: Config, raw2: Config, isUrl1: string -> bool, isUrl2: string -> bool)
    requires raw1.sitemap == raw2.sitemap && Supplied(raw1.sitemap)
    requires isUrl1(JsTrim(raw1.sitemap.value)) == isUrl2(JsTrim(raw1.sitemap.value))
    ensures Validate(raw1, isUrl1).Success? == Validate(raw2, isUrl2).Success?
    ensures Validate(raw1, isUrl1).Failure? ==> Validate(raw1, isUrl1) == Validate(raw2, isUrl2)
  {
  }

  /** A white-space-only sitemap is treated as an absent one: same
      decision, same error; only the output keeps the emptied field. */
  lemma BlankSitemapIsAbsent(source: Option<string>, w: string, isUrl: string -> bool)
    requires AllWs(w, IsJsWhitespace)
    ensures var r1 := Validate(Config(source, Some(w)), isUrl);
            var r2 := Validate(Config(source, None), isUrl);
            && (r1.Success? <==> r2.Success?)
            && (r1.Failure? ==> r1.error == r2.error)
            && (r1.Success? ==> r1.value == r2.value.(sitemap := Some("")))
  {
    TrimEmptyIff(w, IsJsWhitespace);
  }

  /** A white-space-only web-site URL is treated as an absent one. */
  lemma BlankSourceIsAbsent(sitemap: Option<string>, w: string, isUrl: string -> bool)
    requires AllWs(w, IsJsWhitespace)
    ensures var r1 := Validate(Config(Some(w), sitemap), isUrl);
            var r2 := Validate(Config(None, sitemap), isUrl);
            && (r1.Success? <==> r2.Success?)
            && (r1.Failure? ==> r1.error == r2.error)
            && (r1.Success? ==> r1.value == r2.value.(source := Some("")))
  {
    TrimEmptyIff(w, IsJsWhitespace);
  }

  /** Validating the trimmed record gives the same outcome as validating
      the raw one. */
  lemma ValidateNormalized(raw: Config, isUrl: string -> bool)
    ensures Validate(Normalize(raw), isUrl) == Validate(raw, isUrl)
  {
    if raw.source.Some? {
      TrimIdempotent(raw.source.value, IsJsWhitespace);
    }
    if raw.sitemap.Some? {
      TrimIdempotent(raw.sitemap.value, IsJsWhitespace);
    }
  }

  /** Feeding an accepted output back in accepts it unchanged. */
  lemma ValidateIdempotent(raw: Config, isUrl: string -> bool)
    requires Validate(raw, isUrl).Success?
    ensures Validate(Validate(raw, isUrl).value, isUrl) == Validate(raw, isUrl)
  {
    ValidateNormalized(raw, isUrl);
  }

  /** A web-site URL padded with spaces is accepted and kept trimmed. */
  lemma PaddedSourceExample(isUrl: string -> bool)
    requires isUrl("https://example.com/")
    ensures Validate(Config(Some("   https://example.com/   "), None), isUrl)
            == Success(Config(Some("https://example.com/"), None))
  {
    JsTrimSpacesExample();
  }
}
