/**
 * The localization plugin's style rewrite: for every source of a style and
 * every symbol layer it selects, the layer's text-field expression is
 * rewritten so that its name gets read the property of the chosen language.
 */
module Localization {
  import opened Wrappers
  import opened LabelExpression

  const SourceTypeVector: string := "vector"
  const LayerTypeSymbol: string := "symbol"
  const StreetsV7: string := "mapbox.mapbox-streets-v7"
  const StreetsV8: string := "mapbox.mapbox-streets-v8"

  /** A style layer as the style reports it: id, type and the JSON of its text field, if any. */
  datatype StyleLayer = StyleLayer(id: string, layerType: string, textField: Option<string>)

  /** A style source: id, type and, for a vector source, the url it reads tiles from. */
  datatype StyleSource = StyleSource(id: string, sourceType: string, url: Option<string>)

  /**
   * A locale, with the language property names the Streets v7 and v8
   * tilesets use for it.
   */
  datatype Locale = Locale(language: string, nameV7: string, nameV8: string)

  /** Values of the two server-side settings, `None` where the setting has no value. */
  datatype ServerSettings = ServerSettings(language: Option<bool>, worldview: Option<bool>)

  /** Whether `t` occurs in `s` starting at index `i`. */
  predicate OccursAt(s: string, t: string, i: int) {
    0 <= i && i + |t| <= |s| && s[i..i + |t|] == t
  }

  /** An occurrence one place further into `s` is an occurrence in `s` without its first character. */
  lemma OccursShift(s: string, t: string, i: nat)
    requires |s| > 0
    ensures OccursAt(s, t, i + 1) <==> OccursAt(s[1..], t, i)
  {
    var u := s[1..];
    if 0 <= i && i + 1 + |t| <= |s| {
      var a, b := s[i + 1..i + 1 + |t|], u[i..i + |t|];
      assert forall j :: 0 <= j < |t| ==> a[j] == b[j];
      assert a == b;
    }
  }

  /** Whether `t` occurs in `s` as a substring. */
  function Contains(s: string, t: string): (r: bool)
    ensures r <==> exists i :: OccursAt(s, t, i)
    decreases |s|
  {
    if |s| < |t| then
      false
    else if s[..|t|] == t then
      assert OccursAt(s, t, 0);
      true
    else
      var r := Contains(s[1..], t);
      assert forall i :: OccursAt(s, t, i) ==> i >= 1 && OccursAt(s[1..], t, i - 1) by {
        forall i | OccursAt(s, t, i) ensures i >= 1 && OccursAt(s[1..], t, i - 1) {
          assert i != 0;
          OccursShift(s, t, i - 1);
        }
      }
      assert r ==> exists i :: OccursAt(s, t, i) by {
        if r {
          var j :| OccursAt(s[1..], t, j);
          OccursShift(s, t, j);
        }
      }
      r
  }

  /** Whether a source is a vector source whose url names the tileset `marker`. */
  function SourceIsType(source: StyleSource, marker: string): (r: bool)
    ensures r <==> source.sourceType == SourceTypeVector && source.url.Some? && exists i :: OccursAt(source.url.value, marker, i)
  {
    if source.sourceType == SourceTypeVector then
      match source.url
      case Some(url) => Contains(url, marker)
      case None => false
    else
      false
  }

  /** Whether a source is a vector source whose url names the Streets v8 tileset. */
  function SourceIsStreetsV8(source: StyleSource): (r: bool)
    ensures r <==> source.sourceType == SourceTypeVector && source.url.Some? && exists i :: OccursAt(source.url.value, StreetsV8, i)
  {
    SourceIsType(source, StreetsV8)
  }

  /** Whether a source is a vector source whose url names the Streets v7 tileset. */
  function SourceIsStreetsV7(source: StyleSource): (r: bool)
    ensures r <==> source.sourceType == SourceTypeVector && source.url.Some? && exists i :: OccursAt(source.url.value, StreetsV7, i)
  {
    SourceIsType(source, StreetsV7)
  }

  /** Whether a source is a Streets tileset of either version. */
  predicate IsStreets(source: StyleSource) {
    SourceIsStreetsV8(source) || SourceIsStreetsV7(source)
  }

  /** The language property name a Streets source asks for; v8 is tried before v7. */
  function StreetsName(source: StyleSource, locale: Locale): string {
    if SourceIsStreetsV8(source) then locale.nameV8 else locale.nameV7
  }

  /** The language property name after visiting a rewritten layer of `source`. */
  function PickLanguage(current: string, source: StyleSource, locale: Locale): (r: string)
    ensures IsStreets(source) ==> r == StreetsName(source, locale)
    ensures !IsStreets(source) ==> r == current
  {
    if SourceIsStreetsV8(source) then locale.nameV8
    else if SourceIsStreetsV7(source) then locale.nameV7
    else current
  }

  /** Whether a layer is picked by the type and id filters. */
  predicate Selected(layer: StyleLayer, layerIds: Option<seq<string>>) {
    layer.layerType == LayerTypeSymbol && (layerIds.None? || layer.id in layerIds.value)
  }

  /** Whether a layer is rewritten in a pass: it is selected and has a text-field expression. */
  predicate Rewritable(layer: StyleLayer, layerIds: Option<seq<string>>) {
    Selected(layer, layerIds) && layer.textField.Some?
  }

  /** Whether some layer is rewritten in a pass. */
  predicate AnyRewritable(layers: seq<StyleLayer>, layerIds: Option<seq<string>>) {
    exists k :: 0 <= k < |layers| && Rewritable(layers[k], layerIds)
  }

  /** The language names a locale can put into an expression are safe as literal replacements. */
  predicate SafeLocale(locale: Locale) {
    LiteralSafe("name_" + locale.language) && LiteralSafe(locale.nameV7) && LiteralSafe(locale.nameV8)
  }

  /**
   * A layer after one pass with `language`: it keeps its id, its type and
   * whether it is rewritable, and a layer that is not rewritable is left as it is.
   */
  function RewriteLayer(language: string, layer: StyleLayer, layerIds: Option<seq<string>>): (r: StyleLayer)
    requires LiteralSafe(language)
    ensures r.id == layer.id && r.layerType == layer.layerType
    ensures Rewritable(r, layerIds) == Rewritable(layer, layerIds)
    ensures !Rewritable(layer, layerIds) ==> r == layer
  {
    if Rewritable(layer, layerIds) then
      layer.(textField := Some(ConvertExpression(language, layer.textField.value)))
    else
      layer
  }

  /** One pass over the layers for one source, rewriting each layer with `language`. */
  function RewritePass(language: string, layers: seq<StyleLayer>, layerIds: Option<seq<string>>): (r: seq<StyleLayer>)
    requires LiteralSafe(language)
    ensures |r| == |layers|
  {
    seq(|layers|, k requires 0 <= k < |layers| => RewriteLayer(language, layers[k], layerIds))
  }

  /**
   * The layers and the language name after the passes for `sources`,
   * started from `layers` and `language`. A pass changes the language only
   * when it rewrites some layer, because the language is picked at each
   * rewritten layer.
   */
  function Localize(sources: seq<StyleSource>, layers: seq<StyleLayer>, language: string,
                    locale: Locale, layerIds: Option<seq<string>>): (r: (seq<StyleLayer>, string))
    requires LiteralSafe(language) && SafeLocale(locale)
    ensures |r.0| == |layers| && LiteralSafe(r.1)
    decreases |sources|
  {
    if sources == [] then
      (layers, language)
    else
      var before := Localize(sources[..|sources| - 1], layers, language, locale, layerIds);
      SourcePass(sources[|sources| - 1], before.0, before.1, locale, layerIds)
  }

  /** The layers and the language name after the pass for one source. */
  function SourcePass(source: StyleSource, layers: seq<StyleLayer>, language: string,
                      locale: Locale, layerIds: Option<seq<string>>): (r: (seq<StyleLayer>, string))
    requires LiteralSafe(language) && SafeLocale(locale)
    ensures |r.0| == |layers| && LiteralSafe(r.1)
  {
    if AnyRewritable(layers, layerIds) then
      var picked := PickLanguage(language, source, locale);
      (RewritePass(picked, layers, layerIds), picked)
    else
      (layers, language)
  }

  /** The language name after the passes for `sources`, when every pass rewrites some layer. */
  function LanguageAfter(sources: seq<StyleSource>, language: string, locale: Locale): (r: string)
    requires LiteralSafe(language) && SafeLocale(locale)
    ensures LiteralSafe(r)
    decreases |sources|
  {
    if sources == [] then language
    else PickLanguage(LanguageAfter(sources[..|sources| - 1], language, locale), sources[|sources| - 1], locale)
  }

  /** A text-field expression rewritten once per source, each time with that pass's language. */
  function ConvertPasses(text: string, sources: seq<StyleSource>, language: string, locale: Locale): string
    requires LiteralSafe(language) && SafeLocale(locale)
    decreases |sources|
  {
    if sources == [] then text
    else ConvertExpression(LanguageAfter(sources, language, locale),
                           ConvertPasses(text, sources[..|sources| - 1], language, locale))
  }

  /**
   * The passes for `sources` keep every layer's id and type and leave alone
   * every layer that is not rewritable; the other layers' text fields are
   * each rewritten once per source, and when some layer is rewritable the
   * language name ends as LanguageAfter says.
   */
  lemma {:induction false} LocalizeLayer(sources: seq<StyleSource>, layers: seq<StyleLayer>, language: string,
                                         locale: Locale, layerIds: Option<seq<string>>, k: int)
    requires LiteralSafe(language) && SafeLocale(locale)
    requires 0 <= k < |layers|
    ensures Localize(sources, layers, language, locale, layerIds).0[k].id == layers[k].id
    ensures Localize(sources, layers, language, locale, layerIds).0[k].layerType == layers[k].layerType
    ensures !Rewritable(layers[k], layerIds) ==> Localize(sources, layers, language, locale, layerIds).0[k] == layers[k]
    ensures Rewritable(layers[k], layerIds) ==>
              && Localize(sources, layers, language, locale, layerIds).0[k].textField
                   == Some(ConvertPasses(layers[k].textField.value, sources, language, locale))
              && Localize(sources, layers, language, locale, layerIds).1 == LanguageAfter(sources, language, locale)
    decreases |sources|
  {
    if sources != [] {
      var init := sources[..|sources| - 1];
      var before := Localize(init, layers, language, locale, layerIds);
      LocalizeLayer(init, layers, language, locale, layerIds, k);
      var picked := PickLanguage(before.1, sources[|sources| - 1], locale);
      if Rewritable(layers[k], layerIds) {
        assert Rewritable(before.0[k], layerIds);
      }
      if AnyRewritable(before.0, layerIds) {
        assert RewritePass(picked, before.0, layerIds)[k] == RewriteLayer(picked, before.0[k], layerIds);
      }
    }
  }

  /** With no sources, no layer is rewritten. */
  lemma NoSourcesNoRewrite(layers: seq<StyleLayer>, language: string, locale: Locale, layerIds: Option<seq<string>>)
    requires LiteralSafe(language) && SafeLocale(locale)
    ensures Localize([], layers, language, locale, layerIds) == (layers, language)
  {
  }

  /** Without a Streets source the language name is the starting one. */
  lemma {:induction false} LanguageAfterNoStreets(sources: seq<StyleSource>, language: string, locale: Locale)
    requires LiteralSafe(language) && SafeLocale(locale)
    requires forall i :: 0 <= i < |sources| ==> !IsStreets(sources[i])
    ensures LanguageAfter(sources, language, locale) == language
    decreases |sources|
  {
    if sources != [] {
      var init := sources[..|sources| - 1];
      assert forall i :: 0 <= i < |init| ==> init[i] == sources[i];
      LanguageAfterNoStreets(init, language, locale);
    }
  }

  /**
   * The language name carries over between passes: it is the name asked for
   * by the last Streets source.
   */
  lemma {:induction false} LanguageAfterLastStreets(sources: seq<StyleSource>, language: string, locale: Locale, i: int)
    requires LiteralSafe(language) && SafeLocale(locale)
    requires 0 <= i < |sources| && IsStreets(sources[i])
    requires forall j :: i < j < |sources| ==> !IsStreets(sources[j])
    ensures LanguageAfter(sources, language, locale) == StreetsName(sources[i], locale)
    decreases |sources|
  {
    var init := sources[..|sources| - 1];
    if i < |sources| - 1 {
      assert init[i] == sources[i];
      assert forall j :: i < j < |init| ==> init[j] == sources[j];
      LanguageAfterLastStreets(init, language, locale, i);
    }
  }

  /** A language name a locale can produce for a name get. */
  predicate NameLocale(locale: Locale) {
    NameLanguage("name_" + locale.language) && NameLanguage(locale.nameV7) && NameLanguage(locale.nameV8)
  }

  /**
   * A layer whose text field is a single name get, rewritten once per
   * source, ends up reading the language of the last pass: the earlier
   * passes leave no trace.
   */
  lemma {:induction false} LastPassWins(ws: string, suffix: string, sources: seq<StyleSource>, locale: Locale)
    requires forall j :: 0 <= j < |ws| ==> IsWhitespace(ws[j])
    requires 2 <= |suffix| <= 7
    requires forall j :: 0 <= j < |suffix| ==> !IsLineTerminator(suffix[j])
    requires NameLocale(locale) && |sources| > 0
    ensures NameLanguage("name_" + locale.language)
    ensures ConvertPasses(GetHead + ws + NameHead + suffix + Closing, sources, "name_" + locale.language, locale)
         == GetJson(LanguageAfter(sources, "name_" + locale.language, locale))
    decreases |sources|
  {
    var start := "name_" + locale.language;
    var text := GetHead + ws + NameHead + suffix + Closing;
    var last := LanguageAfter(sources, start, locale);
    LanguageIsName(sources, locale);
    if |sources| == 1 {
      ConvertNameGet(ws, suffix, last);
    } else {
      var init := sources[..|sources| - 1];
      LastPassWins(ws, suffix, init, locale);
      LanguageIsName(init, locale);
      RelocalizeName(LanguageAfter(init, start, locale), last);
    }
  }

  /** Every language a name locale leads to is itself a name language. */
  lemma {:induction false} LanguageIsName(sources: seq<StyleSource>, locale: Locale)
    requires NameLocale(locale)
    ensures NameLanguage(LanguageAfter(sources, "name_" + locale.language, locale))
    decreases |sources|
  {
    if sources != [] {
      LanguageIsName(sources[..|sources| - 1], locale);
    }
  }

  /** The style the plugin edits: its sources and its layers, whose text fields are rewritten in place. */
  class Style {
    var sources: seq<StyleSource>
    var layers: seq<StyleLayer>

    constructor(sources: seq<StyleSource>, layers: seq<StyleLayer>)
      ensures this.sources == sources && this.layers == layers
    {
      this.sources := sources;
      this.layers := layers;
    }

    /** Sets the text field of the layer at index `k`. */
    method SetTextField(k: nat, json: string)
      requires k < |layers|
      modifies this
      ensures sources == old(sources)
      ensures layers == old(layers)[k := old(layers)[k].(textField := Some(json))]
    {
      layers := layers[k := layers[k].(textField := Some(json))];
    }
  }

  /**
   * Whether server-side localization is set, as the plugin computes it:
   * false when neither setting has a value, the negated language value,
   * and a worldview value overriding that with its own negation.
   */
  method CheckServerSideLocalizationSetAsWritten(settings: ServerSettings) returns (isLocalizationSet: bool)
    ensures isLocalizationSet == LocalizationSetAsWritten(settings)
  {
    isLocalizationSet := false;
    if settings.language.Some? {
      isLocalizationSet := !settings.language.value;
    }
    if settings.worldview.Some? {
      isLocalizationSet := !settings.worldview.value;
    }
  }

  function LocalizationSetAsWritten(settings: ServerSettings): (r: bool)
    ensures settings.language.None? && settings.worldview.None? ==> !r
    ensures settings.worldview.None? && settings.language.Some? ==> r == !settings.language.value
    ensures settings.worldview.Some? ==> r == !settings.worldview.value
  {
    match settings.worldview
    case Some(worldview) => !worldview
    case None =>
      match settings.language
      case Some(language) => !language
      case None => false
  }

  /**
   * The settings service reports `true` for a setting that is present, so
   * the negation reports two absent settings as set, and a set language
   * whose worldview query has no value as not set.
   */
  lemma AsWrittenMissesLanguage()
    ensures LocalizationSetAsWritten(ServerSettings(Some(false), Some(false)))
    ensures !ServerSideLocalizationSet(ServerSettings(Some(false), Some(false)))
    ensures !LocalizationSetAsWritten(ServerSettings(Some(true), None))
    ensures ServerSideLocalizationSet(ServerSettings(Some(true), None))
  {
  }

  /** Server-side localization is set when the language or the worldview setting is present. */
  function ServerSideLocalizationSet(settings: ServerSettings): bool {
    settings.language == Some(true) || settings.worldview == Some(true)
  }

  /**
   * Whenever some setting has a value, the check as written answers the
   * opposite of whether server-side localization is set, except when the
   * language is present and the worldview reported absent.
   */
  lemma AsWrittenNegatesIntended(settings: ServerSettings)
    requires settings.language.Some? || settings.worldview.Some?
    requires !(settings.language == Some(true) && settings.worldview == Some(false))
    ensures LocalizationSetAsWritten(settings) == !ServerSideLocalizationSet(settings)
  {
  }

  /** Whether server-side localization is set; a present worldview does not clear a present language. */
  method CheckServerSideLocalizationSet(settings: ServerSettings) returns (isLocalizationSet: bool)
    ensures isLocalizationSet == ServerSideLocalizationSet(settings)
  {
    isLocalizationSet := false;
    if settings.language == Some(true) {
      isLocalizationSet := true;
    }
    if settings.worldview == Some(true) {
      isLocalizationSet := true;
    }
  }

  /**
   * The pass for one source: every rewritable layer's text field is
   * rewritten, with the language picked at that layer.
   */
  method LocalizeSource(style: Style, source: StyleSource, language: string, locale: Locale,
                        layerIds: Option<seq<string>>) returns (convertedLocale: string)
    requires LiteralSafe(language) && SafeLocale(locale)
    modifies style
    ensures style.sources == old(style.sources)
    ensures (style.layers, convertedLocale) == SourcePass(source, old(style.layers), language, locale, layerIds)
  {
    ghost var picked := PickLanguage(language, source, locale);
    assert LiteralSafe(picked);
    convertedLocale := language;
    var layers := style.layers;
    var j := 0;
    while j < |layers|
      invariant 0 <= j <= |layers|
      invariant LiteralSafe(convertedLocale)
      invariant style.sources == old(style.sources)
      invariant |style.layers| == |layers|
      invariant convertedLocale == if AnyRewritable(layers[..j], layerIds) then picked else language
      invariant style.layers == PartialPass(picked, layers, j, layerIds)
    {
      PartialPassAt(picked, layers, j, layerIds);
      ghost var before, current := style.layers, convertedLocale;
      convertedLocale := LocalizeLayerAt(style, j, layers[j], source, convertedLocale, locale, layerIds);
      VisitStep(language, source, locale, layers, j, layerIds, before, style.layers, current, convertedLocale);
      j := j + 1;
    }
    assert layers[..j] == layers;
    PassResult(layers, style.layers, picked, layerIds);
  }

  /**
   * Visits layer `j`, listed as `info`: when the layer is selected and has a
   * text field, picks the language for `source` and rewrites the text field
   * with it.
   */
  method LocalizeLayerAt(style: Style, j: int, info: StyleLayer, source: StyleSource, current: string,
                         locale: Locale, layerIds: Option<seq<string>>) returns (next: string)
    requires 0 <= j < |style.layers| && style.layers[j] == info
    requires LiteralSafe(current) && SafeLocale(locale)
    modifies style
    ensures style.sources == old(style.sources)
    ensures Rewritable(info, layerIds) ==>
              && next == PickLanguage(current, source, locale)
              && style.layers == old(style.layers)[j := RewriteLayer(next, info, layerIds)]
    ensures !Rewritable(info, layerIds) ==> next == current && style.layers == old(style.layers)
  {
    next := current;
    if info.layerType == LayerTypeSymbol && (layerIds.None? || info.id in layerIds.value) {
      var layer := style.layers[j];
      if layer.textField.Some? {
        if SourceIsStreetsV8(source) {
          next := locale.nameV8;
        } else if SourceIsStreetsV7(source) {
          next := locale.nameV7;
        }
        style.SetTextField(j, ConvertExpression(next, layer.textField.value));
      }
    }
  }

  /** The layers after the first `j` of them are rewritten with `language` and the others are not yet visited. */
  ghost function PartialPass(language: string, layers: seq<StyleLayer>, j: int, layerIds: Option<seq<string>>)
    : (r: seq<StyleLayer>)
    requires LiteralSafe(language) && 0 <= j <= |layers|
    ensures |r| == |layers|
  {
    seq(|layers|, k requires 0 <= k < |layers| => if k < j then RewriteLayer(language, layers[k], layerIds) else layers[k])
  }

  /** Before layer `j` is visited it is still as listed, for any partial pass. */
  lemma PartialPassAt(language: string, layers: seq<StyleLayer>, j: int, layerIds: Option<seq<string>>)
    requires LiteralSafe(language) && 0 <= j < |layers|
    ensures PartialPass(language, layers, j, layerIds)[j] == layers[j]
  {
  }

  /** Visiting layer `j` extends the partial pass by that layer; an unrewritable layer leaves it as it is. */
  lemma PartialPassStep(language: string, layers: seq<StyleLayer>, j: int, layerIds: Option<seq<string>>)
    requires LiteralSafe(language) && 0 <= j < |layers|
    ensures PartialPass(language, layers, j + 1, layerIds)
         == PartialPass(language, layers, j, layerIds)[j := RewriteLayer(language, layers[j], layerIds)]
    ensures !Rewritable(layers[j], layerIds) ==>
              PartialPass(language, layers, j + 1, layerIds) == PartialPass(language, layers, j, layerIds)
  {
  }

  /**
   * One visit in the pass for `source` keeps the loop's account: the layers
   * seen so far are rewritten with the language picked for the source, and
   * the language is that one once some layer has been rewritten.
   */
  lemma VisitStep(language: string, source: StyleSource, locale: Locale, layers: seq<StyleLayer>, j: int,
                  layerIds: Option<seq<string>>, before: seq<StyleLayer>, after: seq<StyleLayer>,
                  current: string, next: string)
    requires LiteralSafe(language) && SafeLocale(locale) && 0 <= j < |layers|
    requires before == PartialPass(PickLanguage(language, source, locale), layers, j, layerIds)
    requires current == if AnyRewritable(layers[..j], layerIds) then PickLanguage(language, source, locale) else language
    requires Rewritable(layers[j], layerIds) ==>
               && next == PickLanguage(current, source, locale)
               && after == before[j := RewriteLayer(next, layers[j], layerIds)]
    requires !Rewritable(layers[j], layerIds) ==> next == current && after == before
    ensures after == PartialPass(PickLanguage(language, source, locale), layers, j + 1, layerIds)
    ensures next == if AnyRewritable(layers[..j + 1], layerIds) then PickLanguage(language, source, locale) else language
  {
    AnyRewritableStep(layers, j, layerIds);
    PartialPassStep(PickLanguage(language, source, locale), layers, j, layerIds);
  }

  /** A layer list rewritten layer by layer with `language` is the pass result for that language. */
  lemma PassResult(layers: seq<StyleLayer>, result: seq<StyleLayer>, language: string, layerIds: Option<seq<string>>)
    requires LiteralSafe(language) && result == PartialPass(language, layers, |layers|, layerIds)
    ensures result == RewritePass(language, layers, layerIds)
    ensures !AnyRewritable(layers, layerIds) ==> result == layers
  {
    if !AnyRewritable(layers, layerIds) {
      forall k | 0 <= k < |layers| ensures result[k] == layers[k] {
        assert !Rewritable(layers[k], layerIds);
      }
    }
  }

  /** Some layer of the first `j + 1` is rewritable exactly when one of the first `j` is, or layer `j` is. */
  lemma AnyRewritableStep(layers: seq<StyleLayer>, j: int, layerIds: Option<seq<string>>)
    requires 0 <= j < |layers|
    ensures AnyRewritable(layers[..j + 1], layerIds) <==> AnyRewritable(layers[..j], layerIds) || Rewritable(layers[j], layerIds)
  {
    var a, b := layers[..j], layers[..j + 1];
    assert forall k :: 0 <= k < j ==> a[k] == b[k];
    assert b[j] == layers[j];
  }

  /** The passes for the first `i + 1` sources are those for the first `i`, followed by the pass for source `i`. */
  lemma LocalizeStep(sources: seq<StyleSource>, i: int, layers: seq<StyleLayer>, language: string,
                     locale: Locale, layerIds: Option<seq<string>>)
    requires LiteralSafe(language) && SafeLocale(locale) && 0 <= i < |sources|
    ensures var before := Localize(sources[..i], layers, language, locale, layerIds);
            Localize(sources[..i + 1], layers, language, locale, layerIds)
              == SourcePass(sources[i], before.0, before.1, locale, layerIds)
  {
    assert sources[..i + 1][..i] == sources[..i];
  }

  /**
   * Localizes the labels of `style` to `locale`. An unsupported language
   * leaves the style as it is. Otherwise every source is visited in order
   * and, for each, every rewritable layer's text field is rewritten with the
   * language picked at that layer; the server-side check only informs a
   * log message.
   */
  method SetMapLanguage(locale: Locale, style: Style, layerIds: Option<seq<string>>,
                        isSupportedLanguage: string -> bool, settings: ServerSettings)
    requires SafeLocale(locale)
    modifies style
    ensures style.sources == old(style.sources)
    ensures !isSupportedLanguage("name_" + locale.language) ==> style.layers == old(style.layers)
    ensures isSupportedLanguage("name_" + locale.language) ==>
              style.layers == Localize(old(style.sources), old(style.layers), "name_" + locale.language, locale, layerIds).0
  {
    var convertedLocale := "name_" + locale.language;
    if !isSupportedLanguage(convertedLocale) {
      return;
    }
    var isLocalizationSet := CheckServerSideLocalizationSet(settings);

    var sources := style.sources;
    var i := 0;
    while i < |sources|
      invariant 0 <= i <= |sources|
      invariant style.sources == sources
      invariant LiteralSafe(convertedLocale)
      invariant (style.layers, convertedLocale)
             == Localize(sources[..i], old(style.layers), "name_" + locale.language, locale, layerIds)
    {
      convertedLocale := LocalizeSource(style, sources[i], convertedLocale, locale, layerIds);
      LocalizeStep(sources, i, old(style.layers), "name_" + locale.language, locale, layerIds);
      i := i + 1;
    }
    assert sources[..i] == sources;
  }
}
