/**
 * `extendTemplate`: fill the options a configuration leaves falsy with the
 * options detected in its template stylesheet.
 */
module TemplateMerge {
  import opened JsValues
  import opened CliWorld

  const TemplateKey := "template"

  /** A configuration ready for use, or the message printed before `process.exit(1)`. */
  datatype Loaded = Ready(config: Config) | Fatal(message: string)

  /**
   * The configuration after the merge: a template option replaces the base
   * option exactly when the base option is falsy or missing.
   */
  function Merged(base: Config, template: Config): (m: Config)
    ensures m.Keys == base.Keys + template.Keys
    ensures forall k :: k in base && Truthy(base[k]) ==> m[k] == base[k]
    ensures forall k :: k in template && !Truthy(Lookup(base, k)) ==> m[k] == template[k]
    ensures forall k :: k in base && k !in template ==> m[k] == base[k]
  {
    map k | k in base.Keys + template.Keys ::
      if k in template && !Truthy(Lookup(base, k)) then template[k] else Lookup(base, k)
  }

  /** Every truthy template option is truthy after the merge, whichever side it came from. */
  lemma MergedKeepsTemplateTruths(base: Config, template: Config, k: string)
    requires k in template && Truthy(template[k])
    ensures Truthy(Merged(base, template)[k])
  {
  }

  /** Merging the same template a second time changes nothing. */
  lemma MergeIdempotent(base: Config, template: Config)
    ensures Merged(Merged(base, template), template) == Merged(base, template)
  {
    var once := Merged(base, template);
    var twice := Merged(once, template);
    forall k | k in twice
      ensures twice[k] == once[k]
    {
      if k in template && !Truthy(Lookup(once, k)) {
        assert once[k] == template[k];
      }
    }
  }

  /** `fs.existsSync(config.template)`: only a string can name an existing file. */
  predicate TemplateExists(w: World, config: Config)
    ensures TemplateExists(w, config) <==> exists p :: p in w.files && Lookup(config, TemplateKey) == Str(p)
  {
    var t := Lookup(config, TemplateKey);
    t.Str? && t.s in w.files
  }

  /** The message names the template value, as string concatenation renders it. */
  function TemplateNotFound(template: Value): (m: string)
    ensures EndsWith(m, " was not found.") && 28 + 15 <= |m|
    ensures m[..28] == "Template configuration file " && m[28..|m| - 15] == Display(template)
    ensures template.Str? ==> m[28..|m| - 15] == template.s
  {
    var shown := Display(template);
    var m := "Template configuration file " + shown + " was not found.";
    assert m[..28] == "Template configuration file ";
    assert m[28..|m| - 15] == shown;
    assert m[|m| - 15..] == " was not found.";
    m
  }

  /**
   * `extendTemplate(config)`: the `for...in` loop over the detected template
   * options assigns each one whose base option is falsy at that moment.
   */
  method ExtendTemplate(w: World, config: Config) returns (r: Loaded)
    ensures !TemplateExists(w, config) ==> r == Fatal(TemplateNotFound(Lookup(config, TemplateKey)))
    ensures TemplateExists(w, config) ==>
      r == Ready(Merged(config, w.detect(Lookup(config, TemplateKey).s)))
  {
    var t := Lookup(config, TemplateKey);
    if !(t.Str? && t.s in w.files) {
      return Fatal(TemplateNotFound(t));
    }
    var template := w.detect(t.s);
    var merged := config;
    var pending := template.Keys;
    while pending != {}
      invariant pending <= template.Keys
      invariant merged.Keys == config.Keys + (template.Keys - pending)
      invariant forall k :: k in merged ==>
        merged[k] == if k in template && k !in pending && !Truthy(Lookup(config, k))
                     then template[k] else Lookup(config, k)
      decreases pending
    {
      var k :| k in pending;
      if !Truthy(Lookup(merged, k)) {
        merged := merged[k := template[k]];
      }
      pending := pending - {k};
    }
    assert merged == Merged(config, template);
    r := Ready(merged);
  }
}
