/**
 * `getConfig`: load the configuration at a path, extend it with its template
 * and let the `--verbose` and `--lint` flags win over the loaded values.
 */
module ConfigLoad {
  import opened JsValues
  import opened CliWorld
  import opened TemplateMerge

  const VerboseKey := "verbose"
  const LintKey := "lint"

  /** The message names the path verbatim: it can be read back between the fixed texts. */
  function ConfigNotFound(path: string): (m: string)
    ensures EndsWith(m, " was not found.") && |m| == 19 + |path| + 15
    ensures m[..19] == "Configuration file " && m[19..|m| - 15] == path
  {
    var m := "Configuration file " + path + " was not found.";
    assert m[..19] == "Configuration file ";
    assert m[19..|m| - 15] == path;
    assert m[|m| - 15..] == " was not found.";
    m
  }

  /** `configPath.match(/\.css$/)` */
  predicate IsStylesheet(path: string)
    ensures IsStylesheet(path) <==> exists t :: path == t + ".css"
  {
    EndsWithMeansConcatenation(path, ".css");
    EndsWith(path, ".css")
  }

  /** A stylesheet is detected from; anything else is required as a structured document. */
  function Document(w: World, path: string): (doc: Config)
    ensures IsStylesheet(path) ==> doc == w.detect(path)
    ensures !IsStylesheet(path) ==> doc == w.parse(path)
  {
    if IsStylesheet(path) then w.detect(path) else w.parse(path)
  }

  /** `if (program.verbose) config.verbose = true; if (program.lint) config.lint = true;` */
  function WithFlags(c: Config, flags: Flags): (r: Config)
    ensures flags.verbose ==> Lookup(r, VerboseKey) == Bool(true)
    ensures !flags.verbose ==> Lookup(r, VerboseKey) == Lookup(c, VerboseKey)
    ensures flags.lint ==> Lookup(r, LintKey) == Bool(true)
    ensures !flags.lint ==> Lookup(r, LintKey) == Lookup(c, LintKey)
    ensures forall k :: k != VerboseKey && k != LintKey ==> Lookup(r, k) == Lookup(c, k)
  {
    var withVerbose := if flags.verbose then c[VerboseKey := Bool(true)] else c;
    if flags.lint then withVerbose[LintKey := Bool(true)] else withVerbose
  }

  /** What `getConfig(path)` ends with. */
  function LoadSpec(w: World, flags: Flags, path: string): (r: Loaded)
    ensures r.Fatal? ==>
      r.message == ConfigNotFound(path) || r.message == TemplateNotFound(Lookup(Document(w, path), TemplateKey))
    ensures r.Ready? ==> path in w.files
    ensures r.Ready? ==> forall k :: k in Document(w, path) && Truthy(Document(w, path)[k]) ==>
      Truthy(Lookup(r.config, k)) && (k != VerboseKey && k != LintKey ==> Lookup(r.config, k) == Document(w, path)[k])
  {
    if path !in w.files then Fatal(ConfigNotFound(path))
    else
      var doc := Document(w, path);
      if !Truthy(Lookup(doc, TemplateKey)) then Ready(WithFlags(doc, flags))
      else if !TemplateExists(w, doc) then Fatal(TemplateNotFound(Lookup(doc, TemplateKey)))
      else Ready(WithFlags(Merged(doc, w.detect(Lookup(doc, TemplateKey).s)), flags))
  }

  method GetConfig(w: World, flags: Flags, path: string) returns (r: Loaded)
    ensures r == LoadSpec(w, flags, path)
  {
    if path !in w.files {
      return Fatal(ConfigNotFound(path));
    }
    var config := if IsStylesheet(path) then w.detect(path) else w.parse(path);
    if Truthy(Lookup(config, TemplateKey)) {
      var extended := ExtendTemplate(w, config);
      if extended.Fatal? {
        return extended;
      }
      config := extended.config;
    }
    if flags.verbose {
      config := config[VerboseKey := Bool(true)];
    }
    if flags.lint {
      config := config[LintKey := Bool(true)];
    }
    r := Ready(config);
  }

  /** The load fails exactly when the path or a named template does not exist. */
  lemma LoadFailsOnlyOnMissingFiles(w: World, flags: Flags, path: string)
    ensures LoadSpec(w, flags, path).Fatal? <==>
      || path !in w.files
      || (Truthy(Lookup(Document(w, path), TemplateKey)) && !TemplateExists(w, Document(w, path)))
    ensures path !in w.files ==> LoadSpec(w, flags, path) == Fatal(ConfigNotFound(path))
  {
  }

  /** A supplied flag makes the option true whatever the document and its template say. */
  lemma FlagsWin(w: World, flags: Flags, path: string)
    requires LoadSpec(w, flags, path).Ready?
    ensures flags.verbose ==> Lookup(LoadSpec(w, flags, path).config, VerboseKey) == Bool(true)
    ensures flags.lint ==> Lookup(LoadSpec(w, flags, path).config, LintKey) == Bool(true)
  {
  }

  /** Without the flags and without a template the loaded options are exactly the document's. */
  lemma NoFlagsKeepDocument(w: World, flags: Flags, path: string)
    requires !flags.verbose && !flags.lint
    requires path in w.files && !Truthy(Lookup(Document(w, path), TemplateKey))
    ensures LoadSpec(w, flags, path) == Ready(Document(w, path))
  {
    var doc := Document(w, path);
    var r := WithFlags(doc, flags);
    assert r == doc;
  }

  /** A stylesheet configuration is only ever detected from, never required. */
  lemma StylesheetNeverParsed(w: World, flags: Flags, path: string, parse: string -> Config)
    requires IsStylesheet(path)
    ensures LoadSpec(w.(parse := parse), flags, path) == LoadSpec(w, flags, path)
  {
  }

  /** A structured document without a template never runs detection. */
  lemma DocumentNeverDetected(w: World, flags: Flags, path: string, detect: string -> Config)
    requires !IsStylesheet(path) && !Truthy(Lookup(w.parse(path), TemplateKey))
    ensures LoadSpec(w.(detect := detect), flags, path) == LoadSpec(w, flags, path)
  {
  }
}
