/** `generateDockerCompose`: the deployment descriptor is the template text put
    through a fixed, ordered list of literal replace-all steps. */
module Compose {
  import opened Text
  import opened Configuration

  /** One `composeTemplate = composeTemplate.replace(pattern, value)` step. */
  datatype Rule = Rule(pattern: string, value: string)

  /** The steps applied in order, each to the output of the one before. */
  function ApplyRules(t: string, rules: seq<Rule>): string
    decreases |rules|
  {
    if |rules| == 0 then t
    else ApplyRules(ReplaceAll(t, rules[0].pattern, rules[0].value), rules[1..])
  }

  /** The API port-mapping entry of the template's port list. */
  const ApiPortMapping: string := "- \"${API_EXT_PORT}:${API_EXT_PORT}\""

  /** The API port entry of the template's bare port list. */
  const ApiPortEntry: string := "- ${API_EXT_PORT}"

  /** Front end and API ask for the same host port (compared after `strip()`). */
  predicate PortsClash(c: Config)
  {
    Strip(c.fe.external.port) == Strip(c.api.external.port)
  }

  /** The placeholder `${name}` of the template. */
  function Token(name: string): string
  {
    "${" + name + "}"
  }

  /** `${name` without the closing brace, the shape of the last pattern. */
  function Unclosed(name: string): string
  {
    "${" + name
  }

  /** ambar.py:129-133: the repository and the three data directories. */
  function PathRules(c: Config): seq<Rule>
  {
    [ Rule(Token("DOCKER_REPO_URL"), c.dockerRepo),
      Rule(Token("DB_PATH"), c.dataPath + "/db"),
      Rule(Token("ES_PATH"), c.dataPath + "/es"),
      Rule(Token("RABBIT_PATH"), c.dataPath + "/rabbit") ]
  }

  /** ambar.py:135-137: when the ports clash, both API port entries are deleted. */
  function ElisionRules(c: Config): seq<Rule>
  {
    if PortsClash(c) then [Rule(ApiPortMapping, ""), Rule(ApiPortEntry, "")] else []
  }

  /** ambar.py:139-175: every other placeholder, numbers through `str()`, the
      three optional `api` keys with their defaults. The last pattern lacks its
      closing brace, as in the source. */
  function ValueRules(c: Config): seq<Rule>
    requires Enriched(c)
  {
    [ Rule(Token("FE_EXT_PORT"), c.fe.external.port),
      Rule(Token("FE_EXT_HOST"), c.fe.external.host),
      Rule(Token("FE_EXT_PROTOCOL"), c.fe.external.protocol),
      Rule(Token("API_EXT_PORT"), c.api.external.port),
      Rule(Token("API_EXT_PROTOCOL"), c.api.external.protocol),
      Rule(Token("API_EXT_HOST"), c.api.external.host),
      Rule(Token("PIPELINE_COUNT"), NatToDecimal(c.api.pipelineCount)),
      Rule(Token("CRAWLER_COUNT"), NatToDecimal(c.api.crawlerCount)),
      Rule(Token("ANALYTICS_TOKEN"), if c.api.analyticsToken.Some? then c.api.analyticsToken.value else ""),
      Rule(Token("DEFAULT_LANG_ANALYZER"), c.api.defaultLangAnalyzer),
      Rule(Token("AUTH_TYPE"), c.api.auth),
      Rule(Token("WEBAPI_CACHE_SIZE"), c.api.cacheSize),
      Rule(Token("MODE"), if c.api.mode.Some? then c.api.mode.value else "ce"),
      Rule(Token("SHOW_FILE_PREVIEW"), if c.api.showFilePreview.Some? then c.api.showFilePreview.value else "false"),
      Rule(Token("ES_HEAP_SIZE"), c.es.heapSize),
      Rule(Token("ES_CONTAINER_SIZE"), c.es.containerSize),
      Rule(Token("OCR_PDF_MAX_PAGE_COUNT"), NatToDecimal(c.ocr.pdfMaxPageCount)),
      Rule(Token("OCR_PDF_SYMBOLS_PER_PAGE_THRESHOLD"), NatToDecimal(c.ocr.pdfSymbolsPerPageThreshold)),
      Rule(Token("DROPBOX_CLIENT_ID"), c.dropbox.clientId),
      Rule(Token("DROPBOX_REDIRECT_URI"), c.dropbox.redirectUri),
      Rule(Token("DB_CACHE_SIZE_GB"), NatToDecimal(c.db.cacheSizeGb)),
      Rule(Token("FE_PUBLIC_URI"), c.fe.external.publicUri.value),
      Rule(Unclosed("API_PUBLIC_URI"), c.api.external.publicUri.value) ]
  }

  /** The whole chain of ambar.py:129-175, in source order. */
  function Rules(c: Config): seq<Rule>
    requires Enriched(c)
  {
    PathRules(c) + ElisionRules(c) + ValueRules(c)
  }

  /** The descriptor `generateDockerCompose` writes for template `t`. */
  function Render(t: string, c: Config): string
    requires Enriched(c)
  {
    ApplyRules(t, Rules(c))
  }

  /** Running two lists of steps one after the other is running their concatenation. */
  lemma {:induction false} ApplyRulesAppend(t: string, a: seq<Rule>, b: seq<Rule>)
    ensures ApplyRules(t, a + b) == ApplyRules(ApplyRules(t, a), b)
    decreases |a|
  {
    if |a| > 0 {
      assert (a + b)[0] == a[0] && (a + b)[1..] == a[1..] + b;
      ApplyRulesAppend(ReplaceAll(t, a[0].pattern, a[0].value), a[1..], b);
    } else {
      assert a + b == b;
    }
  }

  /** Two steps in a row. */
  lemma ApplyTwoRules(t: string, r1: Rule, r2: Rule)
    ensures ApplyRules(t, [r1, r2]) == ReplaceAll(ReplaceAll(t, r1.pattern, r1.value), r2.pattern, r2.value)
  {
    var once := ReplaceAll(t, r1.pattern, r1.value);
    assert [r1, r2][1..] == [r2];
    assert ApplyRules(t, [r1, r2]) == ApplyRules(once, [r2]);
    assert [r2][1..] == [];
    assert ApplyRules(once, [r2]) == ApplyRules(ReplaceAll(once, r2.pattern, r2.value), []);
  }

  /** The conditional deletion as Python's `split` sees it: when the ports clash,
      the text between consecutive occurrences of each entry is kept and the
      occurrences are dropped; otherwise nothing happens. */
  lemma ElisionDeletes(x: string, c: Config)
    ensures PortsClash(c) ==>
              (ApplyRules(x, ElisionRules(c)) ==
               Join(Split(Join(Split(x, ApiPortMapping), ""), ApiPortEntry), ""))
    ensures !PortsClash(c) ==> ApplyRules(x, ElisionRules(c)) == x
  {
    if PortsClash(c) {
      var once := ReplaceAll(x, ApiPortMapping, "");
      ApplyTwoRules(x, Rule(ApiPortMapping, ""), Rule(ApiPortEntry, ""));
      ReplaceAllIsJoinSplit(x, ApiPortMapping, "");
      ReplaceAllIsJoinSplit(once, ApiPortEntry, "");
    }
  }

  /** The render is three stages: paths, then the conditional deletion of the
      API port entries, then every value; no port is substituted before the deletion. */
  lemma RenderStages(t: string, c: Config)
    requires Enriched(c)
    ensures Render(t, c) == ApplyRules(ApplyRules(ApplyRules(t, PathRules(c)), ElisionRules(c)), ValueRules(c))
  {
    ApplyRulesAppend(t, PathRules(c) + ElisionRules(c), ValueRules(c));
    ApplyRulesAppend(t, PathRules(c), ElisionRules(c));
  }
}
