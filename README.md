# Label localization and the Android Auto widget renderer, in Dafny

This project models two pieces of logic from the Mapbox Maps Android
extensions and proves properties about them.

**Label localization** (`extension-localization`, `Localization.kt`).
`setMapLanguage` localizes the labels of a style.

- It rejects a locale whose `name_<language>` property is not supported.
- Otherwise it visits every style source. For each source it visits every symbol layer, optionally limited to a list of layer ids.
- Each layer with a text-field expression has its expression JSON rewritten by two Java replace-all passes. The first replaces `["get", "name_XX"]` with the get of the chosen language. The second replaces `["get", "abbr"]` with the same get.
- The language starts as `name_<language>`.
  - A Mapbox Streets v8 source switches it to the locale's v8 name.
  - Otherwise a Streets v7 source switches it to the v7 name.
  - The chosen name then carries over to later sources.
- A server-side settings check only feeds a log message.

The model has five modules:

- `LabelExpression` states the two regular expressions as an explicit left-to-right, non-overlapping matcher over strings. The greedy `\s*` is `WhitespaceRun`. The greedy, backtracking `.{2,7}"]` is `LongestFit`.
- `Localization` holds the style as a class with a sequence of sources and a sequence of layers. `SetMapLanguage` and `LocalizeSource` are its two nested loops, proved against the functional description `Localize` / `SourcePass`.
- `WidgetGeometry` holds the renderer's fixed geometry. The pixel-to-clip matrix is stated over exact reals. The quad's vertex and texture coordinates are stated over integers.
- `WidgetRenderer` holds the widget renderer.
  - Its life cycle is a class whose fields (`program`, the two shaders, the four handles, the `textures` array) are updated in place.
  - OpenGL is a context object. It appends every call it receives to a trace and hands out fresh object names.
  - `initialize`, `render`, `contextLost`, `deinitialize` and `createTexture` are each proved to issue exactly a given call sequence. Lemmas about those sequences state the resource discipline.
- `Wrappers` holds `Option`, which stands in for Kotlin's nullable types.

One property of the renderer is proved as written rather than reported as a bug: each render with a live bitmap generates a new texture into `textures[0]`. `deinitialize` deletes only the last one, so earlier textures are never deleted (`SecondRenderLeaksFirstTexture`).

Likewise, when a debug build's shader does not compile, the renderer asks for the info log of `program` rather than of the failed shader. The model issues that call as written.

## Model

| member | source | states |
|---|---|---|
| Localization.SetMapLanguage | extension-localization/src/main/java/com/mapbox/maps/extension/localization/Localization.kt:27-73 | an unsupported `name_<language>` leaves every layer as it was; otherwise the layers end as the passes for all sources, in order, starting from `name_<language>`; the sources are never changed |
| Localization.LocalizeSource | extension-localization/src/main/java/com/mapbox/maps/extension/localization/Localization.kt:49-73 | the loop over the layers for one source rewrites exactly the rewritable layers, all with the language picked for that source, and returns that language if some layer was rewritten and the incoming one otherwise |
| Localization.LocalizeLayerAt | extension-localization/src/main/java/com/mapbox/maps/extension/localization/Localization.kt:51-70 | a layer is rewritten only if it is a symbol layer, the id list is absent or holds its id, and it has a text field; then the language becomes the Streets v8 name, else the v7 name, else stays, and only that layer's text field changes; any other layer leaves style and language untouched |
| Localization.Style.SetTextField | extension-localization/src/main/java/com/mapbox/maps/extension/localization/Localization.kt:101 | writing a text field back changes that layer's text field and nothing else |
| Localization.VisitStep | extension-localization/src/main/java/com/mapbox/maps/extension/localization/Localization.kt:56-70 | one layer visit keeps the loop's account: the visited layers are rewritten with the source's picked language, and the language is that one exactly when some visited layer was rewritable |
| Localization.PassResult | extension-localization/src/main/java/com/mapbox/maps/extension/localization/Localization.kt:56-72 | after all layers are visited the layers are exactly the rewrite pass; with no rewritable layer they are unchanged |
| Localization.LocalizeLayer | extension-localization/src/main/java/com/mapbox/maps/extension/localization/Localization.kt:49-73 | over k sources every layer keeps its id and type; a layer that is not rewritable is untouched; a rewritable one has its text field rewritten once per source, each time with the language of that pass, and the final language is the one the sources lead to |
| Localization.Localize | extension-localization/src/main/java/com/mapbox/maps/extension/localization/Localization.kt:49-73 | the passes for all sources, in order, keep the number of layers and end with a language name that is still safe as a literal replacement |
| Localization.SourcePass | extension-localization/src/main/java/com/mapbox/maps/extension/localization/Localization.kt:50-72 | the pass for one source keeps the number of layers and yields a language name safe as a literal replacement |
| Localization.LocalizeStep | extension-localization/src/main/java/com/mapbox/maps/extension/localization/Localization.kt:49-50 | the passes for the first i + 1 sources are those for the first i followed by the pass for source i, the order in which `forEach` visits them |
| Localization.NoSourcesNoRewrite | extension-localization/src/main/java/com/mapbox/maps/extension/localization/Localization.kt:49-50 | with no style source no layer is rewritten and the language stays `name_<language>` |
| Localization.RewriteLayer | extension-localization/src/main/java/com/mapbox/maps/extension/localization/Localization.kt:92-102 | a layer after one pass keeps its id, its type and whether it is rewritable, and a layer that is not rewritable is left exactly as it was |
| Localization.PickLanguage | extension-localization/src/main/java/com/mapbox/maps/extension/localization/Localization.kt:64-68 | a Streets source gives its tileset's name (v8 tried before v7); any other source keeps the current language |
| Localization.LanguageAfterNoStreets | extension-localization/src/main/java/com/mapbox/maps/extension/localization/Localization.kt:64-68 | without a Streets source the language stays the starting `name_<language>` |
| Localization.LanguageAfterLastStreets | extension-localization/src/main/java/com/mapbox/maps/extension/localization/Localization.kt:64-68 | the language carries over between sources: after all passes it is the name asked for by the last Streets source |
| Localization.LanguageIsName | extension-localization/src/main/java/com/mapbox/maps/extension/localization/Localization.kt:64-68 | when the locale's names are all `name_` properties, so is every language the passes can reach |
| Localization.LastPassWins | extension-localization/src/main/java/com/mapbox/maps/extension/localization/Localization.kt:49-73 | a name get rewritten once per source ends as the get of the last pass's language; the earlier passes leave no trace |
| Localization.Contains | extension-localization/src/main/java/com/mapbox/maps/extension/localization/Localization.kt:114 | `contains` is true exactly when the marker occurs in the url at some index |
| Localization.SourceIsType | extension-localization/src/main/java/com/mapbox/maps/extension/localization/Localization.kt:111-118 | true exactly when the source type is `vector`, the url is present and it contains the marker; false for a non-vector source or a missing url |
| Localization.SourceIsStreetsV8 | extension-localization/src/main/java/com/mapbox/maps/extension/localization/Localization.kt:105-106 | true exactly for a vector source with a url that contains `mapbox.mapbox-streets-v8` |
| Localization.SourceIsStreetsV7 | extension-localization/src/main/java/com/mapbox/maps/extension/localization/Localization.kt:108-109 | true exactly for a vector source with a url that contains `mapbox.mapbox-streets-v7` |
| Localization.CheckServerSideLocalizationSetAsWritten | extension-localization/src/main/java/com/mapbox/maps/extension/localization/Localization.kt:76-90 | the check as written: false when neither setting has a value, the negated language value, a worldview value overriding it with its own negation |
| Localization.LocalizationSetAsWritten | extension-localization/src/main/java/com/mapbox/maps/extension/localization/Localization.kt:79-87 | the same three cases, as a function |
| Localization.AsWrittenMissesLanguage | extension-localization/src/main/java/com/mapbox/maps/extension/localization/Localization.kt:79-87 | two absent settings are reported as set although neither is, and a present language whose worldview query has no value is reported as not set |
| Localization.AsWrittenNegatesIntended | extension-localization/src/main/java/com/mapbox/maps/extension/localization/Localization.kt:79-87 | whenever some setting has a value, the check as written answers the negation of whether server-side localization is set, except for a present language with a worldview reported absent |
| Localization.CheckServerSideLocalizationSet | extension-localization/src/main/java/com/mapbox/maps/extension/localization/Localization.kt:76-90 | the corrected check: set exactly when the language or the worldview setting is present |
| LabelExpression.WhitespaceRun | extension-localization/src/main/java/com/mapbox/maps/extension/localization/Localization.kt:125 | the greedy `\s*` takes the longest run of whitespace and stops at the first other character |
| LabelExpression.WhitespaceBeforeQuote | extension-localization/src/main/java/com/mapbox/maps/extension/localization/Localization.kt:125 | whitespace followed by a quote is consumed whole by `\s*`, so the pattern's `\s*` has one way to match |
| LabelExpression.LongestFit | extension-localization/src/main/java/com/mapbox/maps/extension/localization/Localization.kt:125 | the greedy `.{2,7}` followed by `"]` settles on the largest count from 2 to 7 that fits, and none fits when it reports none |
| LabelExpression.MatchLength | extension-localization/src/main/java/com/mapbox/maps/extension/localization/Localization.kt:125-126 | every match starts with `["get",` and is longer than it |
| LabelExpression.NameGetMatchSound | extension-localization/src/main/java/com/mapbox/maps/extension/localization/Localization.kt:125 | every match of the name pattern is `["get",`, whitespace, `"name_`, 2 to 7 non-line-terminators, `"]`, and its length is that layout's |
| LabelExpression.NameGetMatchComplete | extension-localization/src/main/java/com/mapbox/maps/extension/localization/Localization.kt:125 | every text with that layout starts a match, at least as long as the layout and ending on the longest fitting `"]` |
| LabelExpression.NameGetShapeOf | extension-localization/src/main/java/com/mapbox/maps/extension/localization/Localization.kt:125 | a get of a `name_` property with a 2 to 7 character suffix, put together from its parts, has the name pattern's layout |
| LabelExpression.NameGetShapeExtends | extension-localization/src/main/java/com/mapbox/maps/extension/localization/Localization.kt:125 | that layout is kept when more text follows |
| LabelExpression.NameGetExact | extension-localization/src/main/java/com/mapbox/maps/extension/localization/Localization.kt:125 | when no longer `.{2,7}` fits, the match is exactly the layout |
| LabelExpression.NoLongerFit | extension-localization/src/main/java/com/mapbox/maps/extension/localization/Localization.kt:125 | after `suffix"]` a longer `.{2,7}` can only end on a `"]` of the following text |
| LabelExpression.NameGetBeforeText | extension-localization/src/main/java/com/mapbox/maps/extension/localization/Localization.kt:125 | a name get followed by text with no `"]` in reach is matched as exactly that get |
| LabelExpression.AbbrGetMatchSound | extension-localization/src/main/java/com/mapbox/maps/extension/localization/Localization.kt:126 | every match of the abbr pattern is `["get",`, whitespace and `"abbr"]`, of that length |
| LabelExpression.AbbrGetMatchComplete | extension-localization/src/main/java/com/mapbox/maps/extension/localization/Localization.kt:126 | every such text is matched with exactly that length |
| LabelExpression.AbbrGetShapeOf | extension-localization/src/main/java/com/mapbox/maps/extension/localization/Localization.kt:125-126 | an abbr get has the abbr pattern's layout and starts no name match |
| LabelExpression.AbbrTailOfGet | extension-localization/src/main/java/com/mapbox/maps/extension/localization/Localization.kt:126 | the get of a bracket-free property has the abbr tail exactly when the property is `abbr` |
| LabelExpression.MatchStartsWithBracket | extension-localization/src/main/java/com/mapbox/maps/extension/localization/Localization.kt:125-126 | no match starts at a character other than `[` |
| LabelExpression.ReplaceAll | extension-localization/src/main/java/com/mapbox/maps/extension/localization/Localization.kt:94-97 | Kotlin `String.replace(Regex, String)` as a left-to-right scan that emits the replacement for each match and copies every other character; its properties are the lemmas in the rows below |
| LabelExpression.NoGetHead | extension-localization/src/main/java/com/mapbox/maps/extension/localization/Localization.kt:125-126 | no match starts where the third character is not the `g` of `get` |
| LabelExpression.ReplaceAllCopies | extension-localization/src/main/java/com/mapbox/maps/extension/localization/Localization.kt:94-97 | where no match starts, replace-all copies the character and goes on with the rest |
| LabelExpression.ReplaceAllKeepsUnmatched | extension-localization/src/main/java/com/mapbox/maps/extension/localization/Localization.kt:94-97 | a prefix in which no match starts is copied unchanged, in order |
| LabelExpression.NoMatchUnchanged | extension-localization/src/main/java/com/mapbox/maps/extension/localization/Localization.kt:94-97 | a text in which no match starts is left unchanged |
| LabelExpression.MatchedHead | extension-localization/src/main/java/com/mapbox/maps/extension/localization/Localization.kt:94-97 | a match at the start is replaced by the replacement and the scan goes on after the match, so matches never overlap |
| LabelExpression.BracketFreeHead | extension-localization/src/main/java/com/mapbox/maps/extension/localization/Localization.kt:94-97 | a prefix without `[` is copied unchanged |
| LabelExpression.NoBracketUnchanged | extension-localization/src/main/java/com/mapbox/maps/extension/localization/Localization.kt:94-97 | a text without `[` is left unchanged |
| LabelExpression.UnmatchedBracket | extension-localization/src/main/java/com/mapbox/maps/extension/localization/Localization.kt:94-97 | a `[` that starts no match is copied |
| LabelExpression.GetJson | extension-localization/src/main/java/com/mapbox/maps/extension/localization/Localization.kt:96 | the JSON of `get(language)` is the `["get",` head both patterns start with, then the quoted language and `"]` |
| LabelExpression.ConvertExpression | extension-localization/src/main/java/com/mapbox/maps/extension/localization/Localization.kt:92-102 | the name pass and then the abbr pass, both replacing with the get of the language; an expression without `[` holds no get and stays as it is |
| LabelExpression.WholeNameGetReplaced | extension-localization/src/main/java/com/mapbox/maps/extension/localization/Localization.kt:94-96 | a text that is one name get is replaced whole by the name pass |
| LabelExpression.WholeAbbrGetReplaced | extension-localization/src/main/java/com/mapbox/maps/extension/localization/Localization.kt:97 | a text that is one abbr get is replaced whole by the abbr pass |
| LabelExpression.AbbrPassKeepsGet | extension-localization/src/main/java/com/mapbox/maps/extension/localization/Localization.kt:97 | the abbr pass leaves the get produced by the name pass alone |
| LabelExpression.NamePassKeepsAbbrGet | extension-localization/src/main/java/com/mapbox/maps/extension/localization/Localization.kt:94-96 | the name pass leaves an abbr get alone |
| LabelExpression.ConvertNameGet | extension-localization/src/main/java/com/mapbox/maps/extension/localization/Localization.kt:92-102 | the expression of a single `name_` get with a 2 to 7 character suffix becomes the get of the language |
| LabelExpression.ConvertAbbrGet | extension-localization/src/main/java/com/mapbox/maps/extension/localization/Localization.kt:92-102 | the expression of a single abbr get becomes the get of the language |
| LabelExpression.ConvertKeepsOtherGet | extension-localization/src/main/java/com/mapbox/maps/extension/localization/Localization.kt:94-97 | the get of any other bracket-free property (such as `name` or a short one such as `ref`) is left as it is |
| LabelExpression.ConvertKeepsOddName | extension-localization/src/main/java/com/mapbox/maps/extension/localization/Localization.kt:94-97 | the get of a bracket-free `name_` property whose suffix is shorter than 2 or longer than 7 characters is left as it is |
| LabelExpression.RelocalizeName | extension-localization/src/main/java/com/mapbox/maps/extension/localization/Localization.kt:94-96 | the get of a `name_` language is itself a name get, so a later rewrite replaces it whole |
| LabelExpression.SecondRewriteWins | extension-localization/src/main/java/com/mapbox/maps/extension/localization/Localization.kt:94-97 | rewriting a name get twice equals rewriting it once with the second language |
| LabelExpression.UnmatchedGetCopied | extension-localization/src/main/java/com/mapbox/maps/extension/localization/Localization.kt:94-97 | a get where no match starts is copied and the pass goes on after it |
| LabelExpression.AbbrPassCopiesGet | extension-localization/src/main/java/com/mapbox/maps/extension/localization/Localization.kt:97 | the abbr pass copies the get of any bracket-free property other than `abbr`, of any length, and goes on after it |
| LabelExpression.NamePassCopiesGet | extension-localization/src/main/java/com/mapbox/maps/extension/localization/Localization.kt:94-96 | the name pass copies the get of any bracket-free property not starting with `name_`, of any length, and goes on after it |
| LabelExpression.NamePassCopiesOddName | extension-localization/src/main/java/com/mapbox/maps/extension/localization/Localization.kt:94-96 | the name pass copies a `name_` get whose suffix has fewer than 2 or more than 7 characters (such as `name_x` or `name_zh-Hant-TW`), and, after a short suffix, no `"]` in the next few characters, since `.{2,7}"]` then has nowhere to end |
| LabelExpression.OtherGetCopied | extension-localization/src/main/java/com/mapbox/maps/extension/localization/Localization.kt:94-97 | both passes copy the get of a bracket-free property other than `abbr` that does not start with `name_` |
| LabelExpression.BracketThenFree | extension-localization/src/main/java/com/mapbox/maps/extension/localization/Localization.kt:94-97 | an opening `[` not followed by a get, and the bracket-free text after it, are copied |
| LabelExpression.TwoBracketsThenFree | extension-localization/src/main/java/com/mapbox/maps/extension/localization/Localization.kt:94-97 | two such nested openings are copied |
| LabelExpression.DocHeadCopied | extension-localization/src/main/java/com/mapbox/maps/extension/localization/Localization.kt:24 | the `["format",["coalesce",` head of the documented expression is copied by both passes |
| LabelExpression.DocTailCopied | extension-localization/src/main/java/com/mapbox/maps/extension/localization/Localization.kt:24 | its `,["get","name"]],{}]` tail is copied by both passes |
| LabelExpression.DocEnglishReplaced | extension-localization/src/main/java/com/mapbox/maps/extension/localization/Localization.kt:24 | the name pass replaces `["get","name_en"]` and keeps the tail |
| LabelExpression.DocNamePass | extension-localization/src/main/java/com/mapbox/maps/extension/localization/Localization.kt:21-25 | the name pass turns the documented expression into the same one with the language's get |
| LabelExpression.DocAbbrPass | extension-localization/src/main/java/com/mapbox/maps/extension/localization/Localization.kt:21-25 | the abbr pass then changes nothing |
| LabelExpression.DocExample | extension-localization/src/main/java/com/mapbox/maps/extension/localization/Localization.kt:20-26 | for any bracket-free language name other than `abbr`, such as `name_de`, the documented `["format",["coalesce",["get","name_en"],["get","name"]],{}]` becomes `["format",["coalesce",<get of language>,["get","name"]],{}]`, `["get","name"]` untouched |
| WidgetGeometry.ScreenMatrix | extension-androidauto/src/main/java/com/mapbox/maps/extension/androidauto/BaseWidgetRenderer.kt:56-61 | the screen matrix is one 4x4 matrix of 16 floats |
| WidgetGeometry.ScreenMatrixMapsPixels | extension-androidauto/src/main/java/com/mapbox/maps/extension/androidauto/BaseWidgetRenderer.kt:35-61 | the column-major matrix maps pixel (px, py) to clip (2px/W - 1, 1 - 2py/H, 0, 1) |
| WidgetGeometry.ScreenCorners | extension-androidauto/src/main/java/com/mapbox/maps/extension/androidauto/BaseWidgetRenderer.kt:35-61 | pixel (0, 0) maps to clip (-1, 1) and pixel (W, H) to (1, -1) |
| WidgetGeometry.ClipBounds | extension-androidauto/src/main/java/com/mapbox/maps/extension/androidauto/BaseWidgetRenderer.kt:56-61 | pixel coordinates between 0 and the surface size land between -1 and 1 |
| WidgetGeometry.ScreenMatrixExample | extension-androidauto/src/main/java/com/mapbox/maps/extension/androidauto/BaseWidgetRenderer.kt:56-61 | on a 1000 by 2000 surface the matrix scales x by 1/500 and y by -1/1000 and translates by (-1, 1) |
| WidgetGeometry.Transform | extension-androidauto/src/main/java/com/mapbox/maps/extension/androidauto/BaseWidgetRenderer.kt:353 | the vertex shader's `uScreen * vec4(vPosition, 0.0, 1.0)`: a column-major matrix times a 4-vector is a 4-vector |
| WidgetGeometry.VertexPositionData | extension-androidauto/src/main/java/com/mapbox/maps/extension/androidauto/BaseWidgetRenderer.kt:80-85 | four vertices of two coordinates each |
| WidgetGeometry.QuadPairsWithTexture | extension-androidauto/src/main/java/com/mapbox/maps/extension/androidauto/BaseWidgetRenderer.kt:80-109 | vertex k is the bitmap pixel that texture coordinate k names, moved to rows H-bh to H: V1 (0, H-bh), V2 (0, H), V3 (bw, H-bh), V4 (bw, H) pair with (0,0), (0,1), (1,0), (1,1) |
| WidgetGeometry.QuadInsideClip | extension-androidauto/src/main/java/com/mapbox/maps/extension/androidauto/BaseWidgetRenderer.kt:56-85 | a bitmap no larger than the surface is drawn inside the clip square, flush with its left and bottom edges |
| WidgetGeometry.DrawCountsMatchData | extension-androidauto/src/main/java/com/mapbox/maps/extension/androidauto/BaseWidgetRenderer.kt:318-334 | `VERTEX_COUNT` is 8 / 2 = 4, the stride is 8 bytes, and both coordinate arrays hold 4 vertices of 2 coordinates |
| WidgetRenderer.BaseWidgetRenderer.constructor | extension-androidauto/src/main/java/com/mapbox/maps/extension/androidauto/BaseWidgetRenderer.kt:14-28 | a new renderer keeps the bitmap and surface sizes, has no program, zero handles and shaders, and a one-name texture array holding 0 |
| WidgetRenderer.BaseWidgetRenderer.Initialize | extension-androidauto/src/main/java/com/mapbox/maps/extension/androidauto/BaseWidgetRenderer.kt:128-174 | the outcome is a compile failure exactly in a debug build whose vertex (first) or fragment shader does not compile; on success the vertex shader, fragment shader and program are fresh names in that order, the four handles are the program's locations, and the calls are exactly the initialize sequence; on failure the program, the four handles and the unbuilt shader fields keep their values, no program is created, and one name is used up per shader loaded (one for a vertex failure, two for a fragment failure) |
| WidgetRenderer.BaseWidgetRenderer.LoadCheckedShader | extension-androidauto/src/main/java/com/mapbox/maps/extension/androidauto/BaseWidgetRenderer.kt:134-142 | `loadShader` followed by `checkCompileStatus`: the shader is a fresh name, given its source and compiled; the compile status is queried only in debug builds, and the check fails exactly when a debug build's compile fails, after querying the info log (of `program`, as written) |
| WidgetRenderer.BaseWidgetRenderer.BuildProgram | extension-androidauto/src/main/java/com/mapbox/maps/extension/androidauto/BaseWidgetRenderer.kt:144-173 | `program` holds the name `glCreateProgram` returned; both shaders are attached, vertex first, then the program is linked and its handles looked up |
| WidgetRenderer.BaseWidgetRenderer.LookUpHandles | extension-androidauto/src/main/java/com/mapbox/maps/extension/androidauto/BaseWidgetRenderer.kt:159-173 | the four handles are the locations of `uScreen`, `vPosition`, `vCoordinate` and `vTexture` |
| WidgetRenderer.ShaderCallsLayout | extension-androidauto/src/main/java/com/mapbox/maps/extension/androidauto/BaseWidgetRenderer.kt:128-142 | initialize starts with the attribute-limit query, then creates the vertex shader, then the fragment shader |
| WidgetRenderer.InitCreatesProgram | extension-androidauto/src/main/java/com/mapbox/maps/extension/androidauto/BaseWidgetRenderer.kt:128-157 | both shaders are created before the program, and the program is created, given the vertex then the fragment shader, and linked |
| WidgetRenderer.BaseWidgetRenderer.Render | extension-androidauto/src/main/java/com/mapbox/maps/extension/androidauto/BaseWidgetRenderer.kt:176-246 | with no program a render makes no GL call and changes nothing; with one it makes exactly the render sequence for the surface's screen matrix and the bitmap's quad, generating a fresh texture into `textures[0]` unless the bitmap is recycled, and binds `textures[0]` |
| WidgetRenderer.RenderCallsShape | extension-androidauto/src/main/java/com/mapbox/maps/extension/androidauto/BaseWidgetRenderer.kt:176-246 | a render uses the program, uploads one matrix, `ScreenMatrix(width, height)`, binds the texture to unit 0, points the position attribute at `VertexPositionData(height, bw, bh)` and the coordinate attribute at the texture coordinates, 2 per vertex with an 8-byte stride, draws a triangle strip of 4 vertices and ends by unbinding the array buffer and the program |
| WidgetRenderer.DrawCallsShape | extension-androidauto/src/main/java/com/mapbox/maps/extension/androidauto/BaseWidgetRenderer.kt:195-244 | the draw part activates unit 0, binds the texture, points the attributes at the given positions and the texture coordinates, draws and unbinds, and creates or deletes nothing |
| WidgetRenderer.BaseWidgetRenderer.CreateTexture | extension-androidauto/src/main/java/com/mapbox/maps/extension/androidauto/BaseWidgetRenderer.kt:278-312 | a non-recycled bitmap gets a fresh name in `textures[0]`, overwriting the previous one, and is bound and uploaded; a recycled one changes nothing |
| WidgetRenderer.CreateTextureCallsShape | extension-androidauto/src/main/java/com/mapbox/maps/extension/androidauto/BaseWidgetRenderer.kt:278-312 | a texture is generated exactly when the bitmap is not recycled, and that is the only object created |
| WidgetRenderer.RenderCreatesOnlyTexture | extension-androidauto/src/main/java/com/mapbox/maps/extension/androidauto/BaseWidgetRenderer.kt:176-246 | the only object a render creates is its new texture, generated exactly for a non-recycled bitmap, and it deletes nothing |
| WidgetRenderer.BaseWidgetRenderer.ContextLost | extension-androidauto/src/main/java/com/mapbox/maps/extension/androidauto/BaseWidgetRenderer.kt:248-251 | the program is forgotten (set to 0) and no GL call is made |
| WidgetRenderer.RenderAfterContextLost | extension-androidauto/src/main/java/com/mapbox/maps/extension/androidauto/BaseWidgetRenderer.kt:176-265 | after a lost context, the next render and deinitialize make no GL call, so they release none of the lost program's objects |
| WidgetRenderer.BaseWidgetRenderer.Deinitialize | extension-androidauto/src/main/java/com/mapbox/maps/extension/androidauto/BaseWidgetRenderer.kt:253-265 | with a program it makes exactly the release sequence and sets `program` to 0; without one it makes no call |
| WidgetRenderer.DeinitReleasesInOrder | extension-androidauto/src/main/java/com/mapbox/maps/extension/androidauto/BaseWidgetRenderer.kt:253-265 | the release disables the position attribute first, detaches each shader before deleting it, deletes `textures[0]` and deletes the program last |
| WidgetRenderer.DeinitDeletesOneTexture | extension-androidauto/src/main/java/com/mapbox/maps/extension/androidauto/BaseWidgetRenderer.kt:261 | the only texture deleted is the one named in `textures[0]` |
| WidgetRenderer.DeinitializeTwice | extension-androidauto/src/main/java/com/mapbox/maps/extension/androidauto/BaseWidgetRenderer.kt:253-265 | a second deinitialize is a no-op: two calls issue the release sequence at most once |
| WidgetRenderer.RenderTwiceThenDeinitialize | extension-androidauto/src/main/java/com/mapbox/maps/extension/androidauto/BaseWidgetRenderer.kt:176-312 | two renders with a live bitmap and a deinitialize issue both render sequences with consecutive texture names, then the release of the second texture only |
| WidgetRenderer.SecondRenderLeaksFirstTexture | extension-androidauto/src/main/java/com/mapbox/maps/extension/androidauto/BaseWidgetRenderer.kt:176-312 | in that sequence both textures are generated but only the second is deleted |

## Left out

- Logging (`Log`, `Logger`, `logE`, `logI`) and `checkError`, which only logs, are not modelled. The server-side check's result only decides a log message, so the model computes it and then ignores it.
- Localization.SetMapLanguage: calls the corrected `CheckServerSideLocalizationSet` (see "## Findings") rather than the check as written. The result only selects a log message, so the layers and sources come out the same either way.
- The host SDK's `StyleInterface` is not modelled. The style's sources and layers are given as sequences.
  - `getLayerAs` is modelled as the layer at the same position, which assumes layer ids are unique.
  - `getSourceAs<VectorSource>(id)?.url` becomes the source's optional url.
  - A text field that is not an expression is an absent text field.
- `Expression.toJson` and `Expression.fromRaw` are taken as the identity on the expression's JSON text. `get(language).toJson()` is the string `["get","<language>"]`.
- `isSupportedLanguage`, `getLanguageNameV7` and `getLanguageNameV8` are inputs: a predicate parameter and the two names of a `Locale`.
- `SettingsServiceFactory` is not modelled. The two settings' values are an input.
- LabelExpression.ConvertExpression: requires a language name with no `$` and no `\`, because Java's replace-all reads those in a replacement string as group references and escapes, which are not modelled.
- Localization.SetMapLanguage: requires the locale's three language names to have no `$` and no `\`, for the same reason.
- `BuildConfig.DEBUG` is the renderer's `debug` field.
- The multi-threading around the localization plugin is not modelled. `TAG`, used only by the logging left out above, and the unused `LOCALIZATION_THREAD` constant are left out.
- OpenGL is modelled only as a trace of calls with their arguments, plus fresh names. A `GlContext` fixes which shader kinds compile and which location each variable name has. The following do nothing in the model:
  - shader source text;
  - texture parameters;
  - blending;
  - the `texImage2D` upload;
  - a driver that returns 0 from a create call.
- `super.render()` belongs to the host `Widget` class and is not modelled.
- The `FloatBuffer` copies, their byte order and lazy initialization are not modelled. The call trace records the data each attribute reads and the matrix that is uploaded.
- Floating point is not modelled. Matrix entries are exact reals and vertex coordinates are integers.
- WidgetGeometry.ScreenMatrix: requires a non-zero width and height, where the float division `2f / width` would give an infinity.
- WidgetRenderer.BaseWidgetRenderer.constructor: requires a non-zero width and height for the same reason, because the renderer's calls carry the screen matrix.
- `VERTEX_SHADER_CODE` and `FRAGMENT_SHADER_CODE` are represented only by the kind of shader they belong to. The vertex shader's product `uScreen * vec4(vPosition, 0.0, 1.0)` is what `WidgetGeometry.Transform` computes.

## Findings

| source | as written | input that shows it | evidently intended | confidence | as-written member | corrected member |
|---|---|---|---|---|---|---|
| extension-localization/src/main/java/com/mapbox/maps/extension/localization/Localization.kt:79-87 | `isLocalizationSet = !language`, then `isLocalizationSet = !worldview` for the values of `has(LANGUAGE)` / `has(WORLDVIEW)`: a present setting reports not set, and a present worldview check overrides the language one | neither setting present (`has` gives false for both): reported as set, so the conflict is logged when there is none; a present language whose worldview query has no value is reported as not set | set when the language or the worldview setting is present | not executed | Localization.AsWrittenMissesLanguage, Localization.AsWrittenNegatesIntended | Localization.CheckServerSideLocalizationSet |
