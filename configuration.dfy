/** The installer's configuration (`config.json`) as a record, and the rule
    `loadConfigFromFile` applies after parsing it: an external endpoint without
    a `public_uri` gets one derived from its protocol, host and port. */
module Configuration {
  import opened Text

  /** An endpoint object; `publicUri` is the optional `public_uri` key. The port
      is kept as the text the JSON holds. */
  datatype Endpoint = Endpoint(protocol: string, host: string, port: string, publicUri: Option<string>)

  datatype FrontEnd = FrontEnd(external: Endpoint)

  /** The `api` object; the three `Option` fields are keys the file may omit. */
  datatype Api = Api(
    external: Endpoint,
    pipelineCount: nat,
    crawlerCount: nat,
    analyticsToken: Option<string>,
    defaultLangAnalyzer: string,
    auth: string,
    cacheSize: string,
    mode: Option<string>,
    showFilePreview: Option<string>)

  datatype Elastic = Elastic(heapSize: string, containerSize: string)
  datatype Ocr = Ocr(pdfMaxPageCount: nat, pdfSymbolsPerPageThreshold: nat)
  datatype Dropbox = Dropbox(clientId: string, redirectUri: string)
  datatype Database = Database(cacheSizeGb: nat)

  datatype Config = Config(
    dockerRepo: string,
    dataPath: string,
    dockerComposeTemplate: string,
    fe: FrontEnd,
    api: Api,
    es: Elastic,
    ocr: Ocr,
    dropbox: Dropbox,
    db: Database)

  /** The value of a top-level key of the configuration object that holds a
      string, as `configuration[key]` looks it up; any other key is a `KeyError`. */
  function TopLevelString(c: Config, key: string): (r: Option<string>)
    ensures r.Some? <==> key in {"dockerRepo", "dataPath", "dockerComposeTemplate"}
  {
    if key == "dockerRepo" then Some(c.dockerRepo)
    else if key == "dataPath" then Some(c.dataPath)
    else if key == "dockerComposeTemplate" then Some(c.dockerComposeTemplate)
    else None
  }

  /** `'{}://{}:{}'.format(protocol, host, port)`. */
  function DerivedUri(e: Endpoint): string
  {
    e.protocol + "://" + e.host + ":" + e.port
  }

  /** The enrichment of one external endpoint: a missing `public_uri` is derived,
      a present one is kept, and no other field changes. */
  function WithPublicUri(e: Endpoint): (r: Endpoint)
    ensures r.protocol == e.protocol && r.host == e.host && r.port == e.port
    ensures e.publicUri.Some? ==> r.publicUri == e.publicUri
    ensures e.publicUri.None? ==> r.publicUri == Some(e.protocol + "://" + e.host + ":" + e.port)
  {
    if e.publicUri.Some? then e else e.(publicUri := Some(DerivedUri(e)))
  }

  /** Both external endpoints carry a `public_uri`, as every loaded configuration does. */
  predicate Enriched(c: Config)
  {
    c.api.external.publicUri.Some? && c.fe.external.publicUri.Some?
  }

  /** The configuration with both external `public_uri` keys removed: what
      enrichment must leave alone. */
  function WithoutUris(c: Config): Config
  {
    c.(api := c.api.(external := c.api.external.(publicUri := None)),
       fe := c.fe.(external := c.fe.external.(publicUri := None)))
  }

  /** ambar.py:184-187: enrich `api.external`, then `fe.external`. */
  function Enrich(c: Config): (r: Config)
    ensures Enriched(r)
    ensures WithoutUris(r) == WithoutUris(c)
    ensures r.api.external == WithPublicUri(c.api.external)
    ensures r.fe.external == WithPublicUri(c.fe.external)
  {
    c.(api := c.api.(external := WithPublicUri(c.api.external)),
       fe := c.fe.(external := WithPublicUri(c.fe.external)))
  }

  /** Enriching an endpoint twice is enriching it once. */
  lemma WithPublicUriIdempotent(e: Endpoint)
    ensures WithPublicUri(WithPublicUri(e)) == WithPublicUri(e)
  {
  }

  /** Loading an already enriched configuration changes nothing, so a
      configuration written back after loading reloads to itself. */
  lemma EnrichIdempotent(c: Config)
    ensures Enrich(Enrich(c)) == Enrich(c)
    ensures Enriched(c) ==> Enrich(c) == c
  {
  }

  /** `configuration['api']['external']['host'] = h` and the same for `fe`. */
  function WithHosts(c: Config, h: string): (r: Config)
    ensures r.api.external == c.api.external.(host := h)
    ensures r.fe.external == c.fe.external.(host := h)
    ensures r.api.(external := c.api.external) == c.api
    ensures r.fe.(external := c.fe.external) == c.fe
    ensures r.(api := c.api, fe := c.fe) == c
  {
    c.(api := c.api.(external := c.api.external.(host := h)),
       fe := c.fe.(external := c.fe.external.(host := h)))
  }

  /** `configuration['api']['external']['port'] = p` and the same for `fe`. */
  function WithPorts(c: Config, p: string): (r: Config)
    ensures r.api.external == c.api.external.(port := p)
    ensures r.fe.external == c.fe.external.(port := p)
    ensures r.api.(external := c.api.external) == c.api
    ensures r.fe.(external := c.fe.external) == c.fe
    ensures r.(api := c.api, fe := c.fe) == c
  {
    c.(api := c.api.(external := c.api.external.(port := p)),
       fe := c.fe.(external := c.fe.external.(port := p)))
  }
}
