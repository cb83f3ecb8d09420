/** What `generateDockerCompose` does to a template made of plain text and
    `${NAME}` placeholders. Each substitution step gives the placeholder it
    names its own value, whatever the configuration holds. The whole chain
    replaces every placeholder, on its own, by the value of the first step
    whose pattern it begins with, and keeps the text around it, when no
    substituted value contains a `$` and the two ports differ, so that no
    API port entry is deleted. Text without a `$` always comes out as it went
    in, and so does the brace after `${API_PUBLIC_URI}`. */
module Template {
  import opened Text
  import opened Configuration
  import opened Compose

  /** A stretch of template text. */
  datatype Piece = Lit(text: string) | Placeholder(name: string)

  predicate NoChar(s: string, c: char)
  {
    forall i :: 0 <= i < |s| ==> s[i] != c
  }

  /** Plain text holds no `$`; a placeholder name holds neither `$` nor `}`. */
  predicate WellFormed(p: Piece)
  {
    match p
    case Lit(s) => NoChar(s, '$')
    case Placeholder(n) => NoChar(n, '$') && NoChar(n, '}')
  }

  predicate AllWellFormed(ps: seq<Piece>)
  {
    forall i :: 0 <= i < |ps| ==> WellFormed(ps[i])
  }

  function PieceText(p: Piece): string
  {
    match p
    case Lit(s) => s
    case Placeholder(n) => "${" + n + "}"
  }

  /** The template text the pieces spell. */
  function Flatten(ps: seq<Piece>): string
  {
    if |ps| == 0 then [] else PieceText(ps[0]) + Flatten(ps[1..])
  }

  /** A step whose pattern is `${` followed by text without `$` whose only
      possible `}` is its last character: such a pattern can only match at the
      start of a placeholder and never reaches past its closing brace. */
  predicate PlaceholderPattern(r: Rule)
  {
    |r.pattern| >= 2 && r.pattern[..2] == "${" &&
    NoChar(r.pattern[2..], '$') &&
    (forall i :: 2 <= i < |r.pattern| - 1 ==> r.pattern[i] != '}')
  }

  /** A placeholder step whose value holds no `$`, so that what it writes
      cannot form a placeholder for a later step. */
  predicate PlaceholderRule(r: Rule)
  {
    PlaceholderPattern(r) && NoChar(r.value, '$')
  }

  /** The pattern tail `q` (after `${`) matches the placeholder `n`. */
  predicate Matches(q: string, n: string)
  {
    |q| <= |n| + 1 && q == (n + "}")[..|q|]
  }

  /** One step on one piece: a matched placeholder becomes the value followed
      by what the pattern left of the placeholder's text. */
  function ApplyToPiece(p: Piece, r: Rule): Piece
    requires |r.pattern| >= 2
  {
    match p
    case Lit(_) => p
    case Placeholder(n) =>
      var q := r.pattern[2..];
      if Matches(q, n) then Lit(r.value + (n + "}")[|q|..]) else p
  }

  function ApplyToPieces(ps: seq<Piece>, r: Rule): (qs: seq<Piece>)
    requires |r.pattern| >= 2
    ensures |qs| == |ps| && forall i :: 0 <= i < |ps| ==> qs[i] == ApplyToPiece(ps[i], r)
  {
    seq(|ps|, i requires 0 <= i < |ps| => ApplyToPiece(ps[i], r))
  }

  /** A piece through every step in turn. */
  function RenderPiece(p: Piece, rules: seq<Rule>): Piece
    requires forall i :: 0 <= i < |rules| ==> PlaceholderRule(rules[i])
    decreases |rules|
  {
    if |rules| == 0 then p
    else
      assert PlaceholderRule(rules[0]);
      RenderPiece(ApplyToPiece(p, rules[0]), rules[1..])
  }

  /** The value the first matching step gives placeholder `n`, if any step matches. */
  function FirstMatch(n: string, rules: seq<Rule>): Option<string>
    requires forall i :: 0 <= i < |rules| ==> PlaceholderPattern(rules[i])
    decreases |rules|
  {
    if |rules| == 0 then None
    else
      assert PlaceholderPattern(rules[0]);
      var q := rules[0].pattern[2..];
      if Matches(q, n) then Some(rules[0].value + (n + "}")[|q|..]) else FirstMatch(n, rules[1..])
  }

  // ---------------------------------------------------------------------------
  // One step

  lemma NoMatchAtPlain(s: string, pat: string, j: int)
    requires |pat| > 0 && pat[0] == '$' && 0 <= j < |s| && s[j] != '$'
    ensures !MatchAt(s, pat, j)
  {
    if j + |pat| <= |s| {
      assert s[j..j + |pat|][0] == s[j];
    }
  }

  /** Text without `$` is copied through a step whose pattern starts with `$`. */
  lemma SkipPlain(s: string, rest: string, pat: string, rep: string)
    requires |pat| > 0 && pat[0] == '$' && NoChar(s, '$')
    ensures ReplaceAll(s + rest, pat, rep) == s + ReplaceAll(rest, pat, rep)
  {
    forall j | 0 <= j < |s| ensures !MatchAt(s + rest, pat, j) {
      NoMatchAtPlain(s + rest, pat, j);
    }
    ReplaceAllSkip(s + rest, pat, rep, |s|);
    assert (s + rest)[..|s|] == s && (s + rest)[|s|..] == rest;
  }

  /** A placeholder the step does not match is copied through. */
  lemma SkipPlaceholder(n: string, rest: string, r: Rule)
    requires PlaceholderPattern(r) && NoChar(n, '$') && NoChar(n, '}')
    requires !Matches(r.pattern[2..], n)
    ensures ReplaceAll("${" + n + "}" + rest, r.pattern, r.value) == "${" + n + "}" + ReplaceAll(rest, r.pattern, r.value)
  {
    var t := "${" + n + "}";
    var s := t + rest;
    var pat := r.pattern;
    var q := pat[2..];
    assert !MatchAt(s, pat, 0) by {
      if |pat| <= |s| {
        if |q| > |n| + 1 {
          assert s[2 + |n|] == '}';
          assert pat[2 + |n|] != '}';
          assert s[..|pat|][2 + |n|] != pat[2 + |n|];
        } else {
          var k :| 0 <= k < |q| && q[k] != (n + "}")[k];
          assert s[2 + k] == (n + "}")[k];
          assert s[..|pat|][2 + k] != pat[2 + k];
        }
      }
    }
    forall j | 0 <= j < |t| ensures !MatchAt(s, pat, j) {
      if j > 0 {
        assert s[j] == t[j];
        assert t[j] != '$' by {
          if j == 1 { } else if j < |t| - 1 { assert t[j] == n[j - 2]; } else { }
        }
        NoMatchAtPlain(s, pat, j);
      }
    }
    ReplaceAllSkip(s, pat, r.value, |t|);
    assert s[..|t|] == t && s[|t|..] == rest;
  }

  /** A placeholder the step matches becomes the value and the unmatched rest
      of the placeholder's text. */
  lemma ReplacePlaceholder(n: string, rest: string, r: Rule)
    requires PlaceholderPattern(r) && NoChar(n, '$') && NoChar(n, '}')
    requires Matches(r.pattern[2..], n)
    ensures var q := r.pattern[2..];
            ReplaceAll("${" + n + "}" + rest, r.pattern, r.value) ==
              r.value + (n + "}")[|q|..] + ReplaceAll(rest, r.pattern, r.value)
  {
    var s := "${" + n + "}" + rest;
    var pat := r.pattern;
    var q := pat[2..];
    var tail := (n + "}")[|q|..];
    assert pat == "${" + q;
    assert s[..|pat|] == pat;
    assert s[|pat|..] == tail + rest;
    assert NoChar(tail, '$') by {
      forall i | 0 <= i < |tail| ensures tail[i] != '$' {
        assert tail[i] == (n + "}")[|q| + i];
      }
    }
    SkipPlain(tail, rest, pat, r.value);
  }

  /** One step over the whole template is the step on each piece. */
  lemma {:induction false} StepOverPieces(ps: seq<Piece>, r: Rule)
    requires AllWellFormed(ps) && PlaceholderRule(r)
    ensures ReplaceAll(Flatten(ps), r.pattern, r.value) == Flatten(ApplyToPieces(ps, r))
    decreases |ps|
  {
    if |ps| == 0 {
      assert ReplaceAll([], r.pattern, r.value) == [];
    } else {
      var rest := Flatten(ps[1..]);
      assert ApplyToPieces(ps, r)[1..] == ApplyToPieces(ps[1..], r);
      StepOverPieces(ps[1..], r);
      assert WellFormed(ps[0]);
      match ps[0]
      case Lit(s) =>
        SkipPlain(s, rest, r.pattern, r.value);
      case Placeholder(n) =>
        if Matches(r.pattern[2..], n) {
          ReplacePlaceholder(n, rest, r);
        } else {
          SkipPlaceholder(n, rest, r);
        }
    }
  }

  /** A step keeps every piece well formed. */
  lemma ApplyKeepsWellFormed(ps: seq<Piece>, r: Rule)
    requires AllWellFormed(ps) && PlaceholderRule(r)
    ensures AllWellFormed(ApplyToPieces(ps, r))
  {
    forall i | 0 <= i < |ps| ensures WellFormed(ApplyToPiece(ps[i], r)) {
      assert WellFormed(ps[i]);
      if ps[i].Placeholder? && Matches(r.pattern[2..], ps[i].name) {
        var n := ps[i].name;
        var tail := (n + "}")[|r.pattern[2..]|..];
        forall k | 0 <= k < |tail| ensures tail[k] != '$' {
          assert tail[k] == (n + "}")[|r.pattern[2..]| + k];
        }
        assert NoChar(r.value + tail, '$');
      }
    }
  }

  // ---------------------------------------------------------------------------
  // Every step

  /** Every step over the whole template is every step on each piece. */
  lemma {:induction false} StepsOverPieces(ps: seq<Piece>, rules: seq<Rule>)
    requires AllWellFormed(ps)
    requires forall i :: 0 <= i < |rules| ==> PlaceholderRule(rules[i])
    ensures ApplyRules(Flatten(ps), rules) ==
              Flatten(seq(|ps|, i requires 0 <= i < |ps| => RenderPiece(ps[i], rules)))
    decreases |rules|
  {
    if |rules| == 0 {
      assert seq(|ps|, i requires 0 <= i < |ps| => RenderPiece(ps[i], rules)) == ps;
    } else {
      var r := rules[0];
      var next := ApplyToPieces(ps, r);
      StepOverPieces(ps, r);
      ApplyKeepsWellFormed(ps, r);
      StepsOverPieces(next, rules[1..]);
      var after := seq(|next|, i requires 0 <= i < |next| => RenderPiece(next[i], rules[1..]));
      var whole := seq(|ps|, i requires 0 <= i < |ps| => RenderPiece(ps[i], rules));
      forall i | 0 <= i < |ps| ensures after[i] == whole[i] {
        assert next[i] == ApplyToPiece(ps[i], r);
      }
      assert after == whole;
    }
  }

  /** Text stays as it is; a placeholder becomes the value of its first
      matching step, or stays a placeholder when no step matches it. */
  lemma {:induction false} RenderPieceValue(p: Piece, rules: seq<Rule>)
    requires forall i :: 0 <= i < |rules| ==> PlaceholderRule(rules[i])
    ensures p.Lit? ==> RenderPiece(p, rules) == p
    ensures p.Placeholder? ==>
              RenderPiece(p, rules) == match FirstMatch(p.name, rules)
                                       case Some(v) => Lit(v)
                                       case None => p
    decreases |rules|
  {
    if |rules| > 0 {
      RenderPieceValue(ApplyToPiece(p, rules[0]), rules[1..]);
      RenderPieceValue(p, rules[1..]);
    }
  }

  // ---------------------------------------------------------------------------
  // The installer's placeholders

  /** The placeholder names of ambar.py:129-175 in step order, the two API
      port entries aside. */
  const CatalogNames: seq<string> := [
    "DOCKER_REPO_URL",
    "DB_PATH",
    "ES_PATH",
    "RABBIT_PATH",
    "FE_EXT_PORT",
    "FE_EXT_HOST",
    "FE_EXT_PROTOCOL",
    "API_EXT_PORT",
    "API_EXT_PROTOCOL",
    "API_EXT_HOST",
    "PIPELINE_COUNT",
    "CRAWLER_COUNT",
    "ANALYTICS_TOKEN",
    "DEFAULT_LANG_ANALYZER",
    "AUTH_TYPE",
    "WEBAPI_CACHE_SIZE",
    "MODE",
    "SHOW_FILE_PREVIEW",
    "ES_HEAP_SIZE",
    "ES_CONTAINER_SIZE",
    "OCR_PDF_MAX_PAGE_COUNT",
    "OCR_PDF_SYMBOLS_PER_PAGE_THRESHOLD",
    "DROPBOX_CLIENT_ID",
    "DROPBOX_REDIRECT_URI",
    "DB_CACHE_SIZE_GB",
    "FE_PUBLIC_URI",
    "API_PUBLIC_URI"
  ]

  /** The step index at which each name is substituted. */
  function Position(n: string): nat
  {
    if n == "DOCKER_REPO_URL" then 0
    else if n == "DB_PATH" then 1
    else if n == "ES_PATH" then 2
    else if n == "RABBIT_PATH" then 3
    else if n == "FE_EXT_PORT" then 4
    else if n == "FE_EXT_HOST" then 5
    else if n == "FE_EXT_PROTOCOL" then 6
    else if n == "API_EXT_PORT" then 7
    else if n == "API_EXT_PROTOCOL" then 8
    else if n == "API_EXT_HOST" then 9
    else if n == "PIPELINE_COUNT" then 10
    else if n == "CRAWLER_COUNT" then 11
    else if n == "ANALYTICS_TOKEN" then 12
    else if n == "DEFAULT_LANG_ANALYZER" then 13
    else if n == "AUTH_TYPE" then 14
    else if n == "WEBAPI_CACHE_SIZE" then 15
    else if n == "MODE" then 16
    else if n == "SHOW_FILE_PREVIEW" then 17
    else if n == "ES_HEAP_SIZE" then 18
    else if n == "ES_CONTAINER_SIZE" then 19
    else if n == "OCR_PDF_MAX_PAGE_COUNT" then 20
    else if n == "OCR_PDF_SYMBOLS_PER_PAGE_THRESHOLD" then 21
    else if n == "DROPBOX_CLIENT_ID" then 22
    else if n == "DROPBOX_REDIRECT_URI" then 23
    else if n == "DB_CACHE_SIZE_GB" then 24
    else if n == "FE_PUBLIC_URI" then 25
    else if n == "API_PUBLIC_URI" then 26
    else |CatalogNames|
  }

  // The facts about the names, a few names at a time (NamesFrom*,
  // PositionsFrom*). No model fact lives here: the solver cannot
  // unfold all 27 literal names in one proof, so each fact over the list is
  // split into lemmas over a few entries that the lemma above them combines.

  lemma NamesFrom0()
    ensures forall k | 0 <= k < 3 :: WellFormed(Placeholder(CatalogNames[k]))
  {
  }

  lemma NamesFrom3()
    ensures forall k | 3 <= k < 6 :: WellFormed(Placeholder(CatalogNames[k]))
  {
  }

  lemma NamesFrom6()
    ensures forall k | 6 <= k < 9 :: WellFormed(Placeholder(CatalogNames[k]))
  {
  }

  lemma NamesFrom9()
    ensures forall k | 9 <= k < 12 :: WellFormed(Placeholder(CatalogNames[k]))
  {
  }

  lemma NamesFrom12()
    ensures forall k | 12 <= k < 15 :: WellFormed(Placeholder(CatalogNames[k]))
  {
  }

  lemma NamesFrom15()
    ensures forall k | 15 <= k < 18 :: WellFormed(Placeholder(CatalogNames[k]))
  {
  }

  lemma NamesFrom18()
    ensures forall k | 18 <= k < 20 :: WellFormed(Placeholder(CatalogNames[k]))
  {
  }

  lemma NamesFrom20()
    ensures WellFormed(Placeholder(CatalogNames[20]))
  {
  }

  lemma NamesFrom21()
    ensures WellFormed(Placeholder(CatalogNames[21]))
  {
    var front, back := "OCR_PDF_SYMBOLS_", "PER_PAGE_THRESHOLD";
    assert CatalogNames[21] == front + back;
    NoCharAppend(front, back, '$');
    NoCharAppend(front, back, '}');
  }

  lemma NamesFrom22()
    ensures forall k | 22 <= k < 24 :: WellFormed(Placeholder(CatalogNames[k]))
  {
  }

  lemma NamesFrom24()
    ensures forall k | 24 <= k < 27 :: WellFormed(Placeholder(CatalogNames[k]))
  {
  }

  lemma PositionsFrom0()
    ensures forall k | 0 <= k < 3 :: Position(CatalogNames[k]) == k
  {
  }

  lemma PositionsFrom3()
    ensures forall k | 3 <= k < 6 :: Position(CatalogNames[k]) == k
  {
  }

  lemma PositionsFrom6()
    ensures forall k | 6 <= k < 9 :: Position(CatalogNames[k]) == k
  {
  }

  lemma PositionsFrom9()
    ensures forall k | 9 <= k < 12 :: Position(CatalogNames[k]) == k
  {
  }

  lemma PositionsFrom12()
    ensures forall k | 12 <= k < 15 :: Position(CatalogNames[k]) == k
  {
  }

  lemma PositionsFrom15()
    ensures forall k | 15 <= k < 18 :: Position(CatalogNames[k]) == k
  {
  }

  lemma PositionsFrom18()
    ensures forall k | 18 <= k < 21 :: Position(CatalogNames[k]) == k
  {
  }

  lemma PositionsFrom21()
    ensures forall k | 21 <= k < 24 :: Position(CatalogNames[k]) == k
  {
  }

  lemma PositionsFrom24()
    ensures forall k | 24 <= k < 27 :: Position(CatalogNames[k]) == k
  {
  }

  /** Every name is a well-formed placeholder name, and the names are distinct. */
  lemma CatalogNamesDistinct()
    ensures forall k | 0 <= k < |CatalogNames| :: WellFormed(Placeholder(CatalogNames[k])) && Position(CatalogNames[k]) == k
  {
    NamesFrom0();
    NamesFrom3();
    NamesFrom6();
    NamesFrom9();
    NamesFrom12();
    NamesFrom15();
    NamesFrom18();
    NamesFrom20();
    NamesFrom21();
    NamesFrom22();
    NamesFrom24();
    PositionsFrom0();
    PositionsFrom3();
    PositionsFrom6();
    PositionsFrom9();
    PositionsFrom12();
    PositionsFrom15();
    PositionsFrom18();
    PositionsFrom21();
    PositionsFrom24();
  }

  /** No `$` in any value the steps substitute. */
  predicate DollarFree(c: Config)
    requires Enriched(c)
  {
    NoChar(c.dockerRepo, '$') && NoChar(c.dataPath, '$') &&
    NoChar(c.fe.external.port, '$') && NoChar(c.fe.external.host, '$') && NoChar(c.fe.external.protocol, '$') &&
    NoChar(c.api.external.port, '$') && NoChar(c.api.external.host, '$') && NoChar(c.api.external.protocol, '$') &&
    (c.api.analyticsToken.Some? ==> NoChar(c.api.analyticsToken.value, '$')) &&
    NoChar(c.api.defaultLangAnalyzer, '$') && NoChar(c.api.auth, '$') && NoChar(c.api.cacheSize, '$') &&
    (c.api.mode.Some? ==> NoChar(c.api.mode.value, '$')) &&
    (c.api.showFilePreview.Some? ==> NoChar(c.api.showFilePreview.value, '$')) &&
    NoChar(c.es.heapSize, '$') && NoChar(c.es.containerSize, '$') &&
    NoChar(c.dropbox.clientId, '$') && NoChar(c.dropbox.redirectUri, '$') &&
    NoChar(c.fe.external.publicUri.value, '$') && NoChar(c.api.external.publicUri.value, '$')
  }

  lemma NoCharAppend(a: string, b: string, c: char)
    requires NoChar(a, c) && NoChar(b, c)
    ensures NoChar(a + b, c)
  {
    assert forall i :: 0 <= i < |a + b| ==> (a + b)[i] == if i < |a| then a[i] else b[i - |a|];
  }

  lemma DecimalNoDollar(n: nat)
    ensures NoChar(NatToDecimal(n), '$')
  {
    var s := NatToDecimal(n);
    forall i | 0 <= i < |s| ensures s[i] != '$' { assert IsDigit(s[i]); }
  }

  lemma PathValuesDollarFree(c: Config)
    requires Enriched(c) && DollarFree(c)
    ensures forall i | 0 <= i < |PathRules(c)| :: NoChar(PathRules(c)[i].value, '$')
  {
    NoCharAppend(c.dataPath, "/db", '$');
    NoCharAppend(c.dataPath, "/es", '$');
    NoCharAppend(c.dataPath, "/rabbit", '$');
  }

  lemma OtherValuesDollarFree(c: Config)
    requires Enriched(c) && DollarFree(c)
    ensures forall i | 0 <= i < |ValueRules(c)| :: NoChar(ValueRules(c)[i].value, '$')
  {
    DecimalNoDollar(c.api.pipelineCount);
    DecimalNoDollar(c.api.crawlerCount);
    DecimalNoDollar(c.ocr.pdfMaxPageCount);
    DecimalNoDollar(c.ocr.pdfSymbolsPerPageThreshold);
    DecimalNoDollar(c.db.cacheSizeGb);
  }

  /** What each placeholder of the installer's templates becomes, as listed in
      ambar.py:129-175. `${API_PUBLIC_URI}` keeps its closing brace after the
      URI, because that step's pattern stops before the brace. */
  function Catalog(c: Config, n: string): Option<string>
    requires Enriched(c)
  {
    if n == "DOCKER_REPO_URL" then Some(c.dockerRepo)
    else if n == "DB_PATH" then Some(c.dataPath + "/db")
    else if n == "ES_PATH" then Some(c.dataPath + "/es")
    else if n == "RABBIT_PATH" then Some(c.dataPath + "/rabbit")
    else if n == "FE_EXT_PORT" then Some(c.fe.external.port)
    else if n == "FE_EXT_HOST" then Some(c.fe.external.host)
    else if n == "FE_EXT_PROTOCOL" then Some(c.fe.external.protocol)
    else if n == "API_EXT_PORT" then Some(c.api.external.port)
    else if n == "API_EXT_PROTOCOL" then Some(c.api.external.protocol)
    else if n == "API_EXT_HOST" then Some(c.api.external.host)
    else if n == "PIPELINE_COUNT" then Some(NatToDecimal(c.api.pipelineCount))
    else if n == "CRAWLER_COUNT" then Some(NatToDecimal(c.api.crawlerCount))
    else if n == "ANALYTICS_TOKEN" then Some((if c.api.analyticsToken.Some? then c.api.analyticsToken.value else ""))
    else if n == "DEFAULT_LANG_ANALYZER" then Some(c.api.defaultLangAnalyzer)
    else if n == "AUTH_TYPE" then Some(c.api.auth)
    else if n == "WEBAPI_CACHE_SIZE" then Some(c.api.cacheSize)
    else if n == "MODE" then Some((if c.api.mode.Some? then c.api.mode.value else "ce"))
    else if n == "SHOW_FILE_PREVIEW" then Some((if c.api.showFilePreview.Some? then c.api.showFilePreview.value else "false"))
    else if n == "ES_HEAP_SIZE" then Some(c.es.heapSize)
    else if n == "ES_CONTAINER_SIZE" then Some(c.es.containerSize)
    else if n == "OCR_PDF_MAX_PAGE_COUNT" then Some(NatToDecimal(c.ocr.pdfMaxPageCount))
    else if n == "OCR_PDF_SYMBOLS_PER_PAGE_THRESHOLD" then Some(NatToDecimal(c.ocr.pdfSymbolsPerPageThreshold))
    else if n == "DROPBOX_CLIENT_ID" then Some(c.dropbox.clientId)
    else if n == "DROPBOX_REDIRECT_URI" then Some(c.dropbox.redirectUri)
    else if n == "DB_CACHE_SIZE_GB" then Some(NatToDecimal(c.db.cacheSizeGb))
    else if n == "FE_PUBLIC_URI" then Some(c.fe.external.publicUri.value)
    else if n == "API_PUBLIC_URI" then Some(c.api.external.publicUri.value + "}")
    else None
  }

  /** Step `k` substitutes the `k`-th name: by its full placeholder text and
      the catalogued value, except the last, whose pattern lacks the closing
      brace, so the catalogued value is the step's value and that brace. */
  predicate StepFor(r: Rule, c: Config, k: nat)
    requires Enriched(c) && k < |CatalogNames|
  {
    var n := CatalogNames[k];
    if k < |CatalogNames| - 1 then r.pattern == Token(n) && Catalog(c, n) == Some(r.value)
    else r.pattern == Unclosed(n) && Catalog(c, n) == Some(r.value + "}")
  }

  // The facts about the steps, a few steps at a time.

  lemma PathStepsFor(c: Config)
    requires Enriched(c)
    ensures forall k | 0 <= k < 4 :: StepFor(PathRules(c)[k], c, k)
  {
  }

  lemma ValuePatterns(c: Config)
    requires Enriched(c)
    ensures forall j | 0 <= j < 22 :: ValueRules(c)[j].pattern == Token(CatalogNames[j + 4])
  {
    PatternsFrom0(c);
    PatternsFrom6(c);
    PatternsFrom12(c);
    PatternsFrom18(c);
  }

  // Proof helpers only: `ValuePatterns` and `StepsFor` split over six steps
  // at a time (PatternsFrom*, ValuesFrom*), since the literal value steps are
  // too many for one proof.

  lemma PatternsFrom0(c: Config)
    requires Enriched(c)
    ensures forall j | 0 <= j < 6 :: ValueRules(c)[j].pattern == Token(CatalogNames[j + 4])
  {
  }

  lemma PatternsFrom6(c: Config)
    requires Enriched(c)
    ensures forall j | 6 <= j < 12 :: ValueRules(c)[j].pattern == Token(CatalogNames[j + 4])
  {
  }

  lemma PatternsFrom12(c: Config)
    requires Enriched(c)
    ensures forall j | 12 <= j < 18 :: ValueRules(c)[j].pattern == Token(CatalogNames[j + 4])
  {
  }

  lemma PatternsFrom18(c: Config)
    requires Enriched(c)
    ensures forall j | 18 <= j < 22 :: ValueRules(c)[j].pattern == Token(CatalogNames[j + 4])
  {
  }

  lemma LastPattern(c: Config)
    requires Enriched(c)
    ensures ValueRules(c)[22].pattern == Unclosed(CatalogNames[26])
  {
  }

  lemma ValuesFrom0(c: Config)
    requires Enriched(c)
    ensures forall j | 0 <= j < 6 :: Catalog(c, CatalogNames[j + 4]) == Some(ValueRules(c)[j].value)
  {
  }

  lemma ValuesFrom6(c: Config)
    requires Enriched(c)
    ensures forall j | 6 <= j < 12 :: Catalog(c, CatalogNames[j + 4]) == Some(ValueRules(c)[j].value)
  {
  }

  lemma ValuesFrom12(c: Config)
    requires Enriched(c)
    ensures forall j | 12 <= j < 18 :: Catalog(c, CatalogNames[j + 4]) == Some(ValueRules(c)[j].value)
  {
  }

  lemma ValuesFrom18(c: Config)
    requires Enriched(c)
    ensures forall j | 18 <= j < 22 :: Catalog(c, CatalogNames[j + 4]) == Some(ValueRules(c)[j].value)
  {
  }

  lemma LastValue(c: Config)
    requires Enriched(c)
    ensures Catalog(c, CatalogNames[26]) == Some(ValueRules(c)[22].value + "}")
  {
  }

  /** The substitution steps of the chain: all of it when the ports differ,
      all of it but the two deletions when they clash. */
  function Substitutions(c: Config): seq<Rule>
    requires Enriched(c)
  {
    PathRules(c) + ValueRules(c)
  }

  lemma SubstitutionsWhenDistinct(c: Config)
    requires Enriched(c) && !PortsClash(c)
    ensures Rules(c) == Substitutions(c)
  {
  }

  /** Substitution step `k` is the step for the `k`-th name. */
  lemma StepsFor(c: Config)
    requires Enriched(c)
    ensures |Substitutions(c)| == |CatalogNames|
    ensures forall k | 0 <= k < |CatalogNames| :: StepFor(Substitutions(c)[k], c, k)
  {
    var rules := Substitutions(c);
    PathStepsFor(c);
    ValuePatterns(c);
    LastPattern(c);
    ValuesFrom0(c);
    ValuesFrom6(c);
    ValuesFrom12(c);
    ValuesFrom18(c);
    LastValue(c);
    forall k | 0 <= k < |CatalogNames| ensures StepFor(rules[k], c, k) {
      if k < 4 {
        assert rules[k] == PathRules(c)[k];
      } else {
        assert rules[k] == ValueRules(c)[k - 4];
      }
    }
  }

  /** A pattern that is a well-formed name inside `${` and `}`, or after `${`
      alone, is a placeholder pattern. */
  lemma NamedPattern(r: Rule, m: string)
    requires WellFormed(Placeholder(m))
    requires r.pattern == Token(m) || r.pattern == Unclosed(m)
    ensures PlaceholderPattern(r)
  {
    var p := r.pattern;
    assert p[..2] == "${";
    forall i | 0 <= i < |p[2..]| ensures p[2..][i] != '$' {
      assert p[2..][i] == p[i + 2];
      if i < |m| {
        assert p[i + 2] == m[i];
      }
    }
    forall i | 2 <= i < |p| - 1 ensures p[i] != '}' {
      assert p[i] == m[i - 2];
    }
  }

  /** Every substitution step has a placeholder pattern. */
  predicate SubstitutionPatternsHold(c: Config)
    requires Enriched(c)
  {
    forall i :: 0 <= i < |Substitutions(c)| ==> PlaceholderPattern(Substitutions(c)[i])
  }

  lemma SubstitutionPatterns(c: Config)
    requires Enriched(c)
    ensures SubstitutionPatternsHold(c)
  {
    var rules := Substitutions(c);
    StepsFor(c);
    CatalogNamesDistinct();
    forall i | 0 <= i < |rules| ensures PlaceholderPattern(rules[i]) {
      assert StepFor(rules[i], c, i);
      NamedPattern(rules[i], CatalogNames[i]);
    }
  }

  predicate RulesArePlaceholderRulesHolds(c: Config)
    requires Enriched(c)
  {
    forall i :: 0 <= i < |Rules(c)| ==> PlaceholderRule(Rules(c)[i])
  }

  /** With distinct ports and `$`-free values, every step is a placeholder step. */
  lemma RulesArePlaceholderRules(c: Config)
    requires Enriched(c) && !PortsClash(c) && DollarFree(c)
    ensures RulesArePlaceholderRulesHolds(c)
  {
    var rules := Rules(c);
    SubstitutionsWhenDistinct(c);
    SubstitutionPatterns(c);
    PathValuesDollarFree(c);
    OtherValuesDollarFree(c);
    forall i | 0 <= i < |rules| ensures NoChar(rules[i].value, '$') {
      if i < 4 {
        assert rules[i] == PathRules(c)[i];
      } else {
        assert rules[i] == ValueRules(c)[i - 4];
      }
    }
  }

  /** A pattern tail that is a name and `}` matches exactly that name. */
  lemma ClosedMatches(m: string, n: string)
    requires NoChar(n, '}')
    ensures Matches(m + "}", n) <==> m == n
  {
    var q := m + "}";
    var t := n + "}";
    if |m| < |n| {
      assert q[|m|] != t[|m|];
      assert q != t[..|q|] by {
        assert t[..|q|][|m|] == t[|m|];
      }
    } else if |m| == |n| {
      assert t[..|q|] == t;
      assert q == t ==> m == q[..|m|] == t[..|n|] == n;
    }
  }

  /** The value the first matching step gives `n`, when step `k` matches and no earlier one does. */
  lemma {:induction false} FirstMatchAt(n: string, rules: seq<Rule>, k: nat)
    requires forall i :: 0 <= i < |rules| ==> PlaceholderPattern(rules[i])
    requires k < |rules|
    requires forall j | 0 <= j < k :: |rules[j].pattern| >= 2 && !Matches(rules[j].pattern[2..], n)
    requires |rules[k].pattern| >= 2 && Matches(rules[k].pattern[2..], n)
    ensures FirstMatch(n, rules) == Some(rules[k].value + (n + "}")[|rules[k].pattern| - 2..])
    decreases k
  {
    if k > 0 {
      assert !Matches(rules[0].pattern[2..], n);
      assert forall j | 0 <= j < k - 1 :: rules[1..][j] == rules[j + 1];
      FirstMatchAt(n, rules[1..], k - 1);
    }
  }

  /** Exactly the names in the list are catalogued. */
  lemma PositionOfCatalogued(c: Config, n: string)
    requires Enriched(c)
    ensures Catalog(c, n).Some? <==> Position(n) < |CatalogNames|
  {
  }

  /** A listed name sits at its position in the list. */
  lemma NameAtPosition(n: string)
    requires Position(n) < |CatalogNames|
    ensures CatalogNames[Position(n)] == n
  {
    if Position(n) < 5 {
      NameAtPositionFrom0(n);
    } else if Position(n) < 10 {
      NameAtPositionFrom5(n);
    } else if Position(n) < 15 {
      NameAtPositionFrom10(n);
    } else if Position(n) < 20 {
      NameAtPositionFrom15(n);
    } else if Position(n) < 24 {
      NameAtPositionFrom20(n);
    } else {
      NameAtPositionFrom24(n);
    }
  }

  // Proof helpers only: the case split of `NameAtPosition` over five names at
  // a time (NameAtPositionFrom*).

  lemma NameAtPositionFrom0(n: string)
    requires 0 <= Position(n) < 5
    ensures CatalogNames[Position(n)] == n
  {
  }

  lemma NameAtPositionFrom5(n: string)
    requires 5 <= Position(n) < 10
    ensures CatalogNames[Position(n)] == n
  {
  }

  lemma NameAtPositionFrom10(n: string)
    requires 10 <= Position(n) < 15
    ensures CatalogNames[Position(n)] == n
  {
  }

  lemma NameAtPositionFrom15(n: string)
    requires 15 <= Position(n) < 20
    ensures CatalogNames[Position(n)] == n
  {
  }

  lemma NameAtPositionFrom20(n: string)
    requires 20 <= Position(n) < 24
    ensures CatalogNames[Position(n)] == n
  {
  }

  lemma NameAtPositionFrom24(n: string)
    requires 24 <= Position(n) < 27
    ensures CatalogNames[Position(n)] == n
  {
  }

  lemma TokenTails(n: string)
    ensures Token(n)[2..] == n + "}" && Unclosed(n)[2..] == n
  {
  }

  /** No substitution step before the one for `n` matches `n`. */
  lemma EarlierStepsMiss(c: Config, n: string)
    requires Enriched(c)
    requires Position(n) < |CatalogNames| && WellFormed(Placeholder(n))
    ensures |Substitutions(c)| == |CatalogNames|
    ensures forall j | 0 <= j < Position(n) :: |Substitutions(c)[j].pattern| >= 2 && !Matches(Substitutions(c)[j].pattern[2..], n)
  {
    var rules := Substitutions(c);
    StepsFor(c);
    CatalogNamesDistinct();
    forall j | 0 <= j < Position(n) ensures |rules[j].pattern| >= 2 && !Matches(rules[j].pattern[2..], n) {
      var m := CatalogNames[j];
      assert StepFor(rules[j], c, j);
      TokenTails(m);
      ClosedMatches(m, n);
      assert Position(m) == j;
    }
  }

  /** The ordered substitution steps give every catalogued placeholder its
      catalogued value, whatever the ports and the values are. */
  lemma CatalogAgrees(c: Config, n: string)
    requires Enriched(c)
    requires Catalog(c, n).Some?
    ensures SubstitutionPatternsHold(c) && FirstMatch(n, Substitutions(c)) == Catalog(c, n)
  {
    var rules := Substitutions(c);
    SubstitutionPatterns(c);
    PositionOfCatalogued(c, n);
    NameAtPosition(n);
    var k := Position(n);
    CatalogNamesDistinct();
    assert WellFormed(Placeholder(CatalogNames[k]));
    EarlierStepsMiss(c, n);
    StepsFor(c);
    assert StepFor(rules[k], c, k);
    TokenTails(n);
    var r := rules[k];
    if k < |CatalogNames| - 1 {
      assert r.pattern == Token(n) && Catalog(c, n) == Some(r.value);
      ClosedMatches(n, n);
      FirstMatchAt(n, rules, k);
      assert |r.pattern| - 2 == |n + "}"|;
      assert r.value + (n + "}")[|r.pattern| - 2..] == r.value;
    } else {
      assert r.pattern == Unclosed(n) && Catalog(c, n) == Some(r.value + "}");
      assert (n + "}")[..|n|] == n;
      FirstMatchAt(n, rules, k);
      assert (n + "}")[|r.pattern| - 2..] == "}";
    }
  }

  /** What a piece of the template becomes: text stays, a catalogued
      placeholder becomes its catalogued value. */
  function Filled(p: Piece, c: Config): Piece
    requires Enriched(c)
  {
    match p
    case Lit(_) => p
    case Placeholder(n) => if Catalog(c, n).Some? then Lit(Catalog(c, n).value) else p
  }

  /** When the first matching step of every placeholder gives its catalogued
      value, every piece comes out filled. */
  lemma PiecesFilled(ps: seq<Piece>, rules: seq<Rule>, c: Config)
    requires Enriched(c)
    requires forall i :: 0 <= i < |rules| ==> PlaceholderRule(rules[i])
    requires forall i :: 0 <= i < |rules| ==> PlaceholderPattern(rules[i])
    requires forall j | 0 <= j < |ps| :: ps[j].Placeholder? ==>
               Catalog(c, ps[j].name).Some? &&
               FirstMatch(ps[j].name, rules) == Catalog(c, ps[j].name)
    ensures seq(|ps|, i requires 0 <= i < |ps| => RenderPiece(ps[i], rules)) ==
            seq(|ps|, i requires 0 <= i < |ps| => Filled(ps[i], c))
  {
    forall i | 0 <= i < |ps| ensures RenderPiece(ps[i], rules) == Filled(ps[i], c) {
      RenderPieceValue(ps[i], rules);
    }
  }

  /** `generateDockerCompose` on a template of text and catalogued
      placeholders: each placeholder is replaced by its catalogued value on its
      own, and the text around it is copied. */
  lemma RenderCatalogued(ps: seq<Piece>, c: Config)
    requires Enriched(c) && !PortsClash(c) && DollarFree(c) && AllWellFormed(ps)
    requires forall i | 0 <= i < |ps| :: ps[i].Placeholder? ==> Catalog(c, ps[i].name).Some?
    ensures Render(Flatten(ps), c) == Flatten(seq(|ps|, i requires 0 <= i < |ps| => Filled(ps[i], c)))
  {
    var rules := Rules(c);
    RulesArePlaceholderRules(c);
    SubstitutionsWhenDistinct(c);
    forall i | 0 <= i < |ps| && ps[i].Placeholder?
      ensures FirstMatch(ps[i].name, rules) == Catalog(c, ps[i].name)
    {
      CatalogAgrees(c, ps[i].name);
    }
    StepsOverPieces(ps, rules);
    PiecesFilled(ps, rules, c);
  }

  /** Step `r` leaves `s` as it is. */
  predicate Fixes(s: string, r: Rule)
  {
    ReplaceAll(s, r.pattern, r.value) == s
  }

  predicate AllFix(s: string, rules: seq<Rule>)
  {
    forall i | 0 <= i < |rules| :: Fixes(s, rules[i])
  }

  /** Steps that each leave `s` as it is leave it as it is together. */
  lemma {:induction false} ApplyFixed(s: string, rules: seq<Rule>)
    requires AllFix(s, rules)
    ensures ApplyRules(s, rules) == s
    decreases |rules|
  {
    if |rules| > 0 {
      assert forall i | 0 <= i < |rules[1..]| :: rules[1..][i] == rules[i + 1];
      ApplyFixed(s, rules[1..]);
    }
  }

  /** A pattern holding a character the text lacks does not occur in it. */
  lemma NoCharAbsent(s: string, pat: string, j: nat)
    requires j < |pat| && NoChar(s, pat[j])
    ensures !Contains(s, pat)
  {
    forall i | 0 <= i <= |s| ensures !MatchAt(s, pat, i) {
      if i + |pat| <= |s| {
        assert s[i..i + |pat|][j] == s[i + j];
      }
    }
  }

  /** Paths and values fix `s` when the substitution steps do. */
  lemma SubstitutionsSplit(s: string, c: Config, m: nat)
    requires Enriched(c) && m <= |ValueRules(c)|
    requires forall i | 0 <= i < 4 + m :: Fixes(s, Substitutions(c)[i])
    ensures AllFix(s, PathRules(c)) && AllFix(s, ValueRules(c)[..m])
  {
    var subs := Substitutions(c);
    forall i | 0 <= i < |PathRules(c)| ensures Fixes(s, PathRules(c)[i]) {
      assert PathRules(c)[i] == subs[i];
    }
    forall i | 0 <= i < m ensures Fixes(s, ValueRules(c)[..m][i]) {
      assert ValueRules(c)[..m][i] == subs[i + 4];
    }
  }

  /** A render whose three stages each leave `s` as it is leaves `s` as it is. */
  lemma StagesFixed(s: string, c: Config)
    requires Enriched(c)
    requires AllFix(s, PathRules(c)) && AllFix(s, ElisionRules(c)) && AllFix(s, ValueRules(c))
    ensures Render(s, c) == s
  {
    ApplyFixed(s, PathRules(c));
    ApplyFixed(s, ElisionRules(c));
    ApplyFixed(s, ValueRules(c));
    RenderStages(s, c);
  }

  /** The two deletions never touch text without `-`. */
  lemma ElisionFixes(s: string, c: Config)
    requires NoChar(s, '-')
    ensures AllFix(s, ElisionRules(c))
  {
    assert ApiPortMapping[0] == '-' && ApiPortEntry[0] == '-';
    NoCharAbsent(s, ApiPortMapping, 0);
    NoCharAbsent(s, ApiPortEntry, 0);
    ReplaceAllAbsent(s, ApiPortMapping, "");
    ReplaceAllAbsent(s, ApiPortEntry, "");
  }

  /** The step for another placeholder leaves placeholder `n` as it is. */
  lemma TokenStepFixes(n: string, r: Rule, m: string)
    requires WellFormed(Placeholder(n)) && WellFormed(Placeholder(m)) && m != n
    requires r.pattern == Token(m)
    ensures Fixes(Token(n), r)
  {
    NamedPattern(r, m);
    TokenTails(m);
    ClosedMatches(m, n);
    SkipPlaceholder(n, [], r);
    assert "${" + n + "}" + [] == Token(n);
  }

  /** Every substitution step before the last leaves `${API_PUBLIC_URI}` as it is. */
  lemma EarlierStepsFixPublicUri(c: Config)
    requires Enriched(c)
    ensures |Substitutions(c)| == |CatalogNames|
    ensures forall k | 0 <= k < |CatalogNames| - 1 :: Fixes(Token("API_PUBLIC_URI"), Substitutions(c)[k])
  {
    var n := "API_PUBLIC_URI";
    var rules := Substitutions(c);
    StepsFor(c);
    CatalogNamesDistinct();
    assert CatalogNames[26] == n;
    forall k | 0 <= k < |CatalogNames| - 1 ensures Fixes(Token(n), rules[k]) {
      assert StepFor(rules[k], c, k);
      var m := CatalogNames[k];
      assert Position(m) == k && Position(n) == 26;
      TokenStepFixes(n, rules[k], m);
    }
  }

  /** The last step writes the URI over `${API_PUBLIC_URI` and keeps the `}`. */
  lemma LastStepKeepsBrace(c: Config)
    requires Enriched(c)
    ensures ReplaceAll(Token("API_PUBLIC_URI"), ValueRules(c)[22].pattern, ValueRules(c)[22].value) ==
              c.api.external.publicUri.value + "}"
  {
    var n := "API_PUBLIC_URI";
    var last := ValueRules(c)[22];
    assert last == Rule(Unclosed(n), c.api.external.publicUri.value);
    CatalogNamesDistinct();
    assert CatalogNames[26] == n;
    NamedPattern(last, n);
    assert Unclosed(n)[2..] == n && (n + "}")[..|n|] == n;
    ReplacePlaceholder(n, [], last);
    assert (n + "}")[|n|..] == "}";
    assert "${" + n + "}" + [] == Token(n);
  }

  /** When every step but the last leaves `t` as it is, only the last acts. */
  lemma OnlyLastActs(t: string, vs: seq<Rule>)
    requires |vs| > 0 && AllFix(t, vs[..|vs| - 1])
    ensures ApplyRules(t, vs) == ReplaceAll(t, vs[|vs| - 1].pattern, vs[|vs| - 1].value)
  {
    var front, last := vs[..|vs| - 1], vs[|vs| - 1];
    assert vs == front + [last];
    ApplyRulesAppend(t, front, [last]);
    ApplyFixed(t, front);
    assert [last][1..] == [];
  }

  /** The paths and the deletions leave `${API_PUBLIC_URI}` as it is. */
  lemma PublicUriBeforeValues(c: Config)
    requires Enriched(c)
    ensures ApplyRules(ApplyRules(Token("API_PUBLIC_URI"), PathRules(c)), ElisionRules(c)) == Token("API_PUBLIC_URI")
    ensures AllFix(Token("API_PUBLIC_URI"), ValueRules(c)[..22])
  {
    var t := Token("API_PUBLIC_URI");
    EarlierStepsFixPublicUri(c);
    SubstitutionsSplit(t, c, 22);
    assert NoChar(t, '-');
    ElisionFixes(t, c);
    ApplyFixed(t, PathRules(c));
    ApplyFixed(t, ElisionRules(c));
  }

  /** The step for `${API_PUBLIC_URI` leaves the closing brace of the
      template's `${API_PUBLIC_URI}` after the public URI, for every loaded
      configuration: ports and values play no part. */
  lemma PublicUriKeepsBrace(c: Config)
    requires Enriched(c)
    ensures Render(Token("API_PUBLIC_URI"), c) == c.api.external.publicUri.value + "}"
  {
    var t := Token("API_PUBLIC_URI");
    PublicUriBeforeValues(c);
    OnlyLastActs(t, ValueRules(c));
    LastStepKeepsBrace(c);
    RenderStages(t, c);
  }

  /** A placeholder pattern starts with `$`, so text without one is fixed by it. */
  lemma DollarFreeFixed(s: string, rules: seq<Rule>)
    requires NoChar(s, '$')
    requires forall i :: 0 <= i < |rules| ==> PlaceholderPattern(rules[i])
    ensures forall i :: 0 <= i < |rules| ==> Fixes(s, rules[i])
  {
    forall i | 0 <= i < |rules| ensures Fixes(s, rules[i]) {
      assert rules[i].pattern[..2] == "${";
      assert rules[i].pattern[0] == '$';
      NoCharAbsent(s, rules[i].pattern, 0);
      ReplaceAllAbsent(s, rules[i].pattern, rules[i].value);
    }
  }

  /** Every substitution pattern starts with `$`, so text without one is fixed by it. */
  lemma PlainFixesSubstitutions(s: string, c: Config)
    requires Enriched(c) && NoChar(s, '$')
    ensures forall i | 0 <= i < 4 + |ValueRules(c)| :: Fixes(s, Substitutions(c)[i])
  {
    SubstitutionPatterns(c);
    DollarFreeFixed(s, Substitutions(c));
  }

  /** Both deleted entries hold a `$`, so text without one is fixed by the deletions. */
  lemma PlainFixesElision(s: string, c: Config)
    requires NoChar(s, '$')
    ensures AllFix(s, ElisionRules(c))
  {
    PlainFixesDeletions(s);
  }

  lemma PlainFixesDeletions(s: string)
    requires NoChar(s, '$')
    ensures AllFix(s, [Rule(ApiPortMapping, ""), Rule(ApiPortEntry, "")])
  {
    assert ApiPortMapping[3] == '$' && ApiPortEntry[2] == '$';
    NoCharAbsent(s, ApiPortMapping, 3);
    NoCharAbsent(s, ApiPortEntry, 2);
    ReplaceAllAbsent(s, ApiPortMapping, "");
    ReplaceAllAbsent(s, ApiPortEntry, "");
  }

  /** Every pattern of the chain holds a `$`, so text without one is fixed by every step. */
  lemma PlainFixed(s: string, c: Config)
    requires Enriched(c) && NoChar(s, '$')
    ensures AllFix(s, PathRules(c)) && AllFix(s, ElisionRules(c)) && AllFix(s, ValueRules(c))
  {
    var values := ValueRules(c);
    PlainFixesSubstitutions(s, c);
    SubstitutionsSplit(s, c, |values|);
    assert values[..|values|] == values;
    PlainFixesElision(s, c);
  }

  /** Text without a `$` comes out of `generateDockerCompose` unchanged, for
      every loaded configuration. */
  lemma PlainTextUnchanged(s: string, c: Config)
    requires Enriched(c) && NoChar(s, '$')
    ensures Render(s, c) == s
  {
    PlainFixed(s, c);
    StagesFixed(s, c);
  }
}
