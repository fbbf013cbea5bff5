/**
 * The text rewrite that localizes one symbol layer's text-field expression.
 *
 * The expression is handled as its JSON text. Two Java regular expressions
 * are applied with replace-all, one after the other:
 *
 *   name pattern:  \["get",\s*"(name_.{2,7})"\]
 *   abbr pattern:  \["get",\s*"abbr"\]
 *
 * Each occurrence is replaced by the JSON of the expression `get(language)`,
 * that is `["get","<language>"]`. Replace-all scans left to right and never
 * lets two matches overlap; at every position the matcher of the pattern
 * decides whether (and how long) a match starts there.
 */
module LabelExpression {
  import opened Wrappers

  /** The two patterns of the localization rewrite. */
  datatype Pattern = NameGet | AbbrGet

  /** `["get",` : the literal head both patterns share (7 characters). */
  const GetHead: string := "[\"get\","
  /** `"name_` : what the name pattern expects after the whitespace (6 characters). */
  const NameHead: string := "\"name_"
  /** `"]` : what must follow the language suffix (2 characters). */
  const Closing: string := "\"]"
  /** `"abbr"]` : what the abbr pattern expects after the whitespace (7 characters). */
  const AbbrTail: string := "\"abbr\"]"

  /** Characters that Java's `\s` matches: space, tab, newline, vertical tab, form feed, carriage return. */
  predicate IsWhitespace(c: char) {
    c == ' ' || c == '\t' || c == '\n' || c == '\U{0B}' || c == '\U{0C}' || c == '\r'
  }

  /** Characters that Java's `.` refuses to match (the line terminators). */
  predicate IsLineTerminator(c: char) {
    c == '\n' || c == '\r' || c == '\U{85}' || c == '\U{2028}' || c == '\U{2029}'
  }

  /** The length of the longest run of whitespace at the start of `s`: what the greedy `\s*` consumes. */
  function WhitespaceRun(s: string): (n: nat)
    ensures n <= |s|
    ensures forall j :: 0 <= j < n ==> IsWhitespace(s[j])
    ensures n < |s| ==> !IsWhitespace(s[n])
  {
    if |s| > 0 && IsWhitespace(s[0]) then 1 + WhitespaceRun(s[1..]) else 0
  }

  /** `.{k}"]` matches at the start of `t`: k characters that are not line terminators, then `"]`. */
  predicate Fits(t: string, k: nat) {
    k + 2 <= |t| && (forall j :: 0 <= j < k ==> !IsLineTerminator(t[j])) && t[k..k + 2] == Closing
  }

  /**
   * The repetition count the greedy `.{2,k}"]` settles on: the largest
   * count between 2 and `k` that fits, or None when none does.
   */
  function LongestFit(t: string, k: nat): (r: Option<nat>)
    ensures r.Some? ==> 2 <= r.value <= k && Fits(t, r.value)
    ensures r.Some? ==> forall k' :: r.value < k' <= k ==> !Fits(t, k')
    ensures r.None? ==> forall k' :: 2 <= k' <= k ==> !Fits(t, k')
    decreases k
  {
    if k < 2 then None
    else if Fits(t, k) then Some(k)
    else LongestFit(t, k - 1)
  }

  /** The length of the match of `p` that starts at the beginning of `s`, if there is one. */
  function MatchLength(p: Pattern, s: string): (r: Option<nat>)
    ensures r.Some? ==> GetHead <= s && |GetHead| < r.value <= |s|
  {
    if !(GetHead <= s) then None
    else
      var w := WhitespaceRun(s[7..]);
      var rest := s[7 + w..];
      match p
      case NameGet =>
        if !(NameHead <= rest) then None
        else (
          match LongestFit(rest[6..], 7)
          case None => None
          case Some(k) => Some(7 + w + 6 + k + 2))
      case AbbrGet =>
        if AbbrTail <= rest then Some(7 + w + 7) else None
  }

  /**
   * `s` starts with a text the name pattern can match when `\s*` takes `w`
   * characters and `.{2,7}` takes `k`: the regular expression read as a
   * description of strings, without any choice among alternatives.
   */
  ghost predicate NameGetShape(s: string, w: nat, k: nat) {
    && 2 <= k <= 7
    && 15 + w + k <= |s|
    && s[..7] == GetHead
    && (forall j :: 7 <= j < 7 + w ==> IsWhitespace(s[j]))
    && s[7 + w..13 + w] == NameHead
    && (forall j :: 13 + w <= j < 13 + w + k ==> !IsLineTerminator(s[j]))
    && s[13 + w + k..15 + w + k] == Closing
  }

  /** `s` starts with a text the abbr pattern matches when `\s*` takes `w` characters. */
  ghost predicate AbbrGetShape(s: string, w: nat) {
    && 14 + w <= |s|
    && s[..7] == GetHead
    && (forall j :: 7 <= j < 7 + w ==> IsWhitespace(s[j]))
    && s[7 + w..14 + w] == AbbrTail
  }

  /** Whitespace followed by a quote is consumed entirely by `\s*`, and no more. */
  lemma WhitespaceBeforeQuote(s: string, w: nat)
    requires w < |s|
    requires forall j :: 0 <= j < w ==> IsWhitespace(s[j])
    requires s[w] == '"'
    ensures WhitespaceRun(s) == w
  {
  }

  /** Every match of the name pattern has the shape of the regular expression. */
  lemma NameGetMatchSound(s: string)
    requires MatchLength(NameGet, s).Some?
    ensures exists w: nat, k: nat :: NameGetShape(s, w, k) && MatchLength(NameGet, s).value == 15 + w + k
  {
    assert GetHead <= s;
    var w := WhitespaceRun(s[7..]);
    var rest := s[7 + w..];
    assert NameHead <= rest;
    var t := rest[6..];
    assert LongestFit(t, 7).Some?;
    var k := LongestFit(t, 7).value;
    assert MatchLength(NameGet, s).value == 15 + w + k;
    assert Fits(t, k) && 2 <= k <= 7;
    assert s[..7] == GetHead;
    assert forall j :: 7 <= j < 7 + w ==> s[j] == s[7..][j - 7];
    assert s[7 + w..13 + w] == rest[..6];
    assert forall j :: 13 + w <= j < 13 + w + k ==> s[j] == t[j - 13 - w];
    assert s[13 + w + k..15 + w + k] == t[k..k + 2];
    assert NameGetShape(s, w, k);
  }

  /**
   * Whenever the name pattern can match at the start of `s`, the matcher finds
   * a match, its `\s*` part is the shape's whitespace and its `.{2,7}` part is
   * at least as long as the shape's (greedy).
   */
  lemma NameGetMatchComplete(s: string, w: nat, k: nat)
    requires NameGetShape(s, w, k)
    ensures MatchLength(NameGet, s).Some?
    ensures 15 + w + k <= MatchLength(NameGet, s).value <= 22 + w
    ensures WhitespaceRun(s[7..]) == w && Fits(s[13 + w..], k)
  {
    assert GetHead <= s by { assert s[..7] == GetHead; }
    assert s[7..][w] == s[7 + w];
    WhitespaceBeforeQuote(s[7..], w);
    var rest := s[7 + w..];
    assert rest[..6] == s[7 + w..13 + w];
    var t := rest[6..];
    assert forall j :: 0 <= j < k ==> t[j] == s[13 + w + j];
    assert t[k..k + 2] == s[13 + w + k..15 + w + k];
    assert Fits(t, k);
    assert t == s[13 + w..];
  }

  /** Every match of the abbr pattern has the shape of the regular expression. */
  lemma AbbrGetMatchSound(s: string)
    requires MatchLength(AbbrGet, s).Some?
    ensures exists w: nat :: AbbrGetShape(s, w) && MatchLength(AbbrGet, s).value == 14 + w
  {
    var w := WhitespaceRun(s[7..]);
    assert s[7 + w..][..7] == s[7 + w..14 + w];
    assert AbbrGetShape(s, w);
  }

  /** Whenever the abbr pattern can match at the start of `s`, the matcher matches exactly that text. */
  lemma AbbrGetMatchComplete(s: string, w: nat)
    requires AbbrGetShape(s, w)
    ensures MatchLength(AbbrGet, s) == Some(14 + w)
  {
    assert GetHead <= s by { assert s[..7] == GetHead; }
    assert s[7..][w] == s[7 + w];
    WhitespaceBeforeQuote(s[7..], w);
    assert s[7 + w..][..7] == s[7 + w..14 + w];
  }

  /** Both patterns begin with `[`: no match starts at any other character. */
  lemma MatchStartsWithBracket(p: Pattern, s: string)
    requires |s| > 0
    ensures MatchLength(p, s).Some? ==> s[0] == '['
  {
    assert GetHead <= s ==> s[0] == GetHead[0];
  }

  /**
   * Replace-all: scan `s` from the left; where a match starts, emit `r` and
   * continue after the match, otherwise keep the character and move on.
   */
  function ReplaceAll(p: Pattern, s: string, r: string): string
    decreases |s|
  {
    if s == [] then []
    else
      match MatchLength(p, s)
      case Some(n) => r + ReplaceAll(p, s[n..], r)
      case None => [s[0]] + ReplaceAll(p, s[1..], r)
  }

  /** Concatenation is associative; stated once so that proofs can regroup texts in one step. */
  lemma StringAssoc(a: string, b: string, c: string)
    ensures a + (b + c) == (a + b) + c
  {
  }

  /** Where no match starts, replace-all copies the first character and goes on with the rest. */
  lemma ReplaceAllCopies(p: Pattern, s: string, r: string)
    requires s != [] && MatchLength(p, s).None?
    ensures ReplaceAll(p, s, r) == [s[0]] + ReplaceAll(p, s[1..], r)
  {
  }

  /** Characters before the first match are copied to the output unchanged and in order. */
  lemma {:induction false} ReplaceAllKeepsUnmatched(p: Pattern, s: string, i: nat, r: string)
    requires i <= |s|
    requires forall j :: 0 <= j < i ==> MatchLength(p, s[j..]).None?
    ensures ReplaceAll(p, s, r) == s[..i] + ReplaceAll(p, s[i..], r)
    decreases i
  {
    if i > 0 {
      var t := s[1..];
      assert MatchLength(p, s[0..]).None?;
      assert s[0..] == s;
      ReplaceAllCopies(p, s, r);
      forall j | 0 <= j < i - 1 ensures MatchLength(p, t[j..]).None? {
        assert t[j..] == s[j + 1..];
        assert MatchLength(p, s[j + 1..]).None?;
      }
      ReplaceAllKeepsUnmatched(p, t, i - 1, r);
      assert t[i - 1..] == s[i..];
      StringAssoc([s[0]], t[..i - 1], ReplaceAll(p, s[i..], r));
      assert s[..i] == [s[0]] + t[..i - 1];
    }
  }

  /** A text in which the pattern matches nowhere is left as it is. */
  lemma NoMatchUnchanged(p: Pattern, s: string, r: string)
    requires forall j :: 0 <= j < |s| ==> MatchLength(p, s[j..]).None?
    ensures ReplaceAll(p, s, r) == s
  {
    ReplaceAllKeepsUnmatched(p, s, |s|, r);
    assert s[..|s|] == s;
  }

  /** A bracket-free head is copied through, and the rewrite goes on after it. */
  lemma {:induction false} BracketFreeHead(p: Pattern, x: string, y: string, r: string)
    requires '[' !in x
    ensures ReplaceAll(p, x + y, r) == x + ReplaceAll(p, y, r)
    decreases |x|
  {
    if x != [] {
      var s := x + y;
      assert s[0] == x[0] && x[0] in x;
      MatchStartsWithBracket(p, s);
      ReplaceAllCopies(p, s, r);
      assert s[1..] == x[1..] + y;
      assert forall c :: c in x[1..] ==> c in x;
      BracketFreeHead(p, x[1..], y, r);
      StringAssoc([x[0]], x[1..], ReplaceAll(p, y, r));
      assert [x[0]] + x[1..] == x;
    } else {
      assert x + y == y;
    }
  }

  /** A text without `[` holds no match, so it is left as it is. */
  lemma NoBracketUnchanged(p: Pattern, s: string, r: string)
    requires '[' !in s
    ensures ReplaceAll(p, s, r) == s
  {
    BracketFreeHead(p, s, [], r);
    assert s + [] == s;
  }

  /** `[` characters that start no match are copied through. */
  lemma UnmatchedBracket(p: Pattern, y: string, r: string)
    requires MatchLength(p, "[" + y).None?
    ensures ReplaceAll(p, "[" + y, r) == "[" + ReplaceAll(p, y, r)
  {
    assert ("[" + y)[1..] == y;
  }

  /** A match at the start is replaced and the rewrite goes on after it. */
  lemma MatchedHead(p: Pattern, x: string, y: string, r: string)
    requires MatchLength(p, x + y) == Some(|x|)
    ensures ReplaceAll(p, x + y, r) == r + ReplaceAll(p, y, r)
  {
    assert (x + y)[|x|..] == y;
  }

  /** Kotlin's `Regex.replace` reads `$` and `\` in a replacement specially; a name without them is inserted literally. */
  predicate LiteralSafe(language: string) {
    '$' !in language && '\\' !in language
  }

  /** A language name with no square bracket cannot form part of a get pattern of its own. */
  predicate BracketFree(language: string) {
    '[' !in language && ']' !in language
  }

  /** The JSON text of the expression `get(language)`. */
  function GetJson(language: string): (json: string)
    ensures json == GetHead + "\"" + language + Closing
  {
    "[\"get\",\"" + language + "\"]"
  }

  /**
   * The rewritten text-field JSON: every name get, and then every abbr get,
   * replaced by the get of `language`.
   */
  function ConvertExpression(language: string, json: string): (r: string)
    requires LiteralSafe(language)
    ensures '[' !in json ==> r == json
  {
    var g := GetJson(language);
    var named := ReplaceAll(NameGet, json, g);
    assert '[' !in json ==> named == json && ReplaceAll(AbbrGet, named, g) == json by {
      if '[' !in json {
        NoBracketUnchanged(NameGet, json, g);
        NoBracketUnchanged(AbbrGet, json, g);
      }
    }
    ReplaceAll(AbbrGet, named, g)
  }

  /** The get of a bracket-free language is an abbr get exactly when the language is `abbr`. */
  lemma AbbrTailOfGet(language: string)
    requires BracketFree(language)
    ensures AbbrTail <= GetJson(language)[7..] <==> language == "abbr"
  {
    var rest := GetJson(language)[7..];
    assert rest == "\"" + language + "\"]";
    assert |rest| == |language| + 3;
    assert |language| >= 6 ==> rest[6] == language[5] && language[5] in language;
    assert |language| == 5 ==> rest[6] == '"';
    assert |language| >= 4 ==> rest[1..5] == language[..4];
    assert |language| == 4 ==> rest[5..7] == Closing;
  }

  /** The abbr pass leaves the get of a bracket-free language as it is. */
  lemma AbbrPassKeepsGet(language: string)
    requires BracketFree(language)
    ensures ReplaceAll(AbbrGet, GetJson(language), GetJson(language)) == GetJson(language)
  {
    var g := GetJson(language);
    assert g[7..][0] == '"';
    assert WhitespaceRun(g[7..]) == 0;
    AbbrTailOfGet(language);
    assert g == "[" + g[1..];
    assert '[' !in g[1..] by {
      assert g[1..] == "\"get\",\"" + language + "\"]";
    }
    if language == "abbr" {
      assert MatchLength(AbbrGet, g) == Some(|g|);
      MatchedHead(AbbrGet, g, [], g);
      assert g + [] == g;
    } else {
      NoBracketUnchanged(AbbrGet, g[1..], g);
      UnmatchedBracket(AbbrGet, g[1..], g);
    }
  }

  /** A get of a `name_` property, laid out from its parts, has the shape of the name pattern. */
  lemma NameGetShapeOf(ws: string, suffix: string)
    requires forall j :: 0 <= j < |ws| ==> IsWhitespace(ws[j])
    requires 2 <= |suffix| <= 7
    requires forall j :: 0 <= j < |suffix| ==> !IsLineTerminator(suffix[j])
    ensures NameGetShape(GetHead + ws + NameHead + suffix + Closing, |ws|, |suffix|)
  {
    var w, k := |ws|, |suffix|;
    var a := GetHead + ws;
    var b := a + NameHead;
    var c := b + suffix;
    var s := c + Closing;
    assert |s| == 15 + w + k;
    assert s[..|c|] == c && c[..|b|] == b && b[..|a|] == a;
    assert s[..7] == GetHead by {
      assert s[..7] == c[..7] == b[..7] == a[..7];
    }
    forall j | 7 <= j < 7 + w ensures IsWhitespace(s[j]) {
      assert s[j] == c[j] && c[j] == b[j] && b[j] == a[j] == ws[j - 7];
    }
    assert s[7 + w..13 + w] == NameHead by {
      assert s[7 + w..13 + w] == c[7 + w..13 + w] == b[7 + w..13 + w];
    }
    forall j | 13 + w <= j < 13 + w + k ensures !IsLineTerminator(s[j]) {
      assert s[j] == c[j] == suffix[j - 13 - w];
    }
    assert s[13 + w + k..15 + w + k] == Closing;
  }

  /** A text that is one name get and nothing more is replaced whole by the name pass. */
  lemma WholeNameGetReplaced(s: string, w: nat, k: nat, r: string)
    requires NameGetShape(s, w, k) && |s| == 15 + w + k
    ensures ReplaceAll(NameGet, s, r) == r
  {
    NameGetMatchComplete(s, w, k);
    assert s[|s|..] == [];
  }

  /** A single get of a `name_` property with a 2 to 7 character suffix becomes the get of `language`. */
  lemma ConvertNameGet(ws: string, suffix: string, language: string)
    requires forall j :: 0 <= j < |ws| ==> IsWhitespace(ws[j])
    requires 2 <= |suffix| <= 7
    requires forall j :: 0 <= j < |suffix| ==> !IsLineTerminator(suffix[j])
    requires LiteralSafe(language) && BracketFree(language)
    ensures ConvertExpression(language, GetHead + ws + NameHead + suffix + Closing) == GetJson(language)
  {
    var s := GetHead + ws + NameHead + suffix + Closing;
    var g := GetJson(language);
    NameGetShapeOf(ws, suffix);
    WholeNameGetReplaced(s, |ws|, |suffix|, g);
    AbbrPassKeepsGet(language);
  }

  /** A get of `abbr`, laid out from its parts, has the shape of the abbr pattern and is no name get. */
  lemma AbbrGetShapeOf(ws: string)
    requires forall j :: 0 <= j < |ws| ==> IsWhitespace(ws[j])
    ensures AbbrGetShape(GetHead + ws + AbbrTail, |ws|)
    ensures MatchLength(NameGet, GetHead + ws + AbbrTail).None?
  {
    var w := |ws|;
    var a := GetHead + ws;
    var s := a + AbbrTail;
    assert s[..7] == a[..7] == GetHead;
    assert forall j :: 7 <= j < 7 + w ==> s[j] == a[j] == ws[j - 7];
    assert s[7 + w..14 + w] == AbbrTail;
    assert s[7..][w] == s[7 + w];
    WhitespaceBeforeQuote(s[7..], w);
    assert s[7 + w..][1] == 'a';
  }

  /** The name pass leaves a get of `abbr` as it is. */
  lemma NamePassKeepsAbbrGet(ws: string, r: string)
    requires forall j :: 0 <= j < |ws| ==> IsWhitespace(ws[j])
    ensures ReplaceAll(NameGet, GetHead + ws + AbbrTail, r) == GetHead + ws + AbbrTail
  {
    var s := GetHead + ws + AbbrTail;
    AbbrGetShapeOf(ws);
    var t := "\"get\"," + ws + AbbrTail;
    assert s == "[" + t;
    assert '[' !in t by {
      assert forall j :: 0 <= j < |ws| ==> ws[j] != '[';
    }
    NoBracketUnchanged(NameGet, t, r);
    UnmatchedBracket(NameGet, t, r);
  }

  /** A text that is one abbr get and nothing more is replaced whole by the abbr pass. */
  lemma WholeAbbrGetReplaced(s: string, w: nat, r: string)
    requires AbbrGetShape(s, w) && |s| == 14 + w
    ensures ReplaceAll(AbbrGet, s, r) == r
  {
    AbbrGetMatchComplete(s, w);
    assert s[|s|..] == [];
  }

  /** A single get of `abbr` becomes the get of `language`. */
  lemma ConvertAbbrGet(ws: string, language: string)
    requires forall j :: 0 <= j < |ws| ==> IsWhitespace(ws[j])
    requires LiteralSafe(language)
    ensures ConvertExpression(language, GetHead + ws + AbbrTail) == GetJson(language)
  {
    var s := GetHead + ws + AbbrTail;
    var g := GetJson(language);
    NamePassKeepsAbbrGet(ws, g);
    AbbrGetShapeOf(ws);
    WholeAbbrGetReplaced(s, |ws|, g);
  }

  /**
   * The get of any other property, such as the plain `["get","name"]`, is
   * neither a name get nor an abbr get: the rewrite leaves it alone.
   */
  lemma ConvertKeepsOtherGet(language: string, property: string)
    requires LiteralSafe(language)
    requires BracketFree(property) && property != "abbr" && !(NameHead[1..] <= property)
    ensures ConvertExpression(language, GetJson(property)) == GetJson(property)
  {
    var g := GetJson(language);
    var q := GetJson(property);
    assert q + [] == q;
    OtherGetCopied(NameGet, property, [], g);
    OtherGetCopied(AbbrGet, property, [], g);
  }

  /**
   * The get of a `name_` property whose suffix is shorter than 2 or longer
   * than 7 characters is left as it is by the rewrite.
   */
  lemma ConvertKeepsOddName(language: string, suffix: string)
    requires LiteralSafe(language)
    requires BracketFree(suffix) && (|suffix| < 2 || |suffix| > 7)
    ensures ConvertExpression(language, GetJson("name_" + suffix)) == GetJson("name_" + suffix)
  {
    var g := GetJson(language);
    var property := "name_" + suffix;
    var q := GetJson(property);
    assert q + [] == q;
    assert BracketFree(property) by {
      assert forall c :: c in property ==> c in "name_" || c in suffix;
    }
    NamePassCopiesOddName(suffix, [], g);
    AbbrPassCopiesGet(property, [], g);
  }

  /** A language property name as the rewrite produces it: `name_` and a 2 to 7 character suffix. */
  predicate NameLanguage(language: string) {
    && |language| >= 5 && language[..5] == "name_"
    && 2 <= |language| - 5 <= 7
    && (forall j :: 5 <= j < |language| ==> !IsLineTerminator(language[j]))
    && BracketFree(language) && LiteralSafe(language)
  }

  /** The get of a `name_` language is itself a name get, so a later rewrite replaces it whole. */
  lemma RelocalizeName(first: string, second: string)
    requires NameLanguage(first) && LiteralSafe(second) && BracketFree(second)
    ensures ConvertExpression(second, GetJson(first)) == GetJson(second)
  {
    var suffix := first[5..];
    assert first == "name_" + suffix;
    assert GetJson(first) == GetHead + [] + NameHead + suffix + Closing;
    forall j | 0 <= j < |suffix| ensures !IsLineTerminator(suffix[j]) {
      assert suffix[j] == first[j + 5];
    }
    ConvertNameGet([], suffix, second);
  }

  /**
   * Rewriting an already localized name get again: the second language wins,
   * as if the first rewrite had never happened.
   */
  lemma SecondRewriteWins(ws: string, suffix: string, first: string, second: string)
    requires forall j :: 0 <= j < |ws| ==> IsWhitespace(ws[j])
    requires 2 <= |suffix| <= 7
    requires forall j :: 0 <= j < |suffix| ==> !IsLineTerminator(suffix[j])
    requires NameLanguage(first) && LiteralSafe(second) && BracketFree(second)
    ensures ConvertExpression(second, ConvertExpression(first, GetHead + ws + NameHead + suffix + Closing))
         == ConvertExpression(second, GetHead + ws + NameHead + suffix + Closing)
         == GetJson(second)
  {
    ConvertNameGet(ws, suffix, first);
    ConvertNameGet(ws, suffix, second);
    RelocalizeName(first, second);
  }

  /** A text whose third character is not the `g` of `["get",` starts no match. */
  lemma NoGetHead(p: Pattern, s: string)
    requires |s| >= 3 && s[2] != 'g'
    ensures MatchLength(p, s).None?
  {
  }

  /** A name-pattern shape is kept when more text follows it. */
  lemma NameGetShapeExtends(s: string, rest: string, w: nat, k: nat)
    requires NameGetShape(s, w, k)
    ensures NameGetShape(s + rest, w, k)
  {
    var t := s + rest;
    assert t[..7] == s[..7];
    assert forall j :: 0 <= j < |s| ==> t[j] == s[j];
    assert t[7 + w..13 + w] == s[7 + w..13 + w];
    assert t[13 + w + k..15 + w + k] == s[13 + w + k..15 + w + k];
  }

  /** The name pass settles on exactly the shape's `.{2,7}` count when no longer count fits. */
  lemma NameGetExact(s: string, w: nat, k: nat, t: string)
    requires NameGetShape(s, w, k) && t == s[13 + w..]
    requires forall k' :: k < k' <= 7 ==> !Fits(t, k')
    ensures MatchLength(NameGet, s) == Some(15 + w + k)
  {
    NameGetMatchComplete(s, w, k);
    assert s[7 + w..][6..] == t;
    var lf := LongestFit(t, 7);
    assert lf.Some? && lf.value >= k;
    assert lf.value == k;
  }

  /** After `suffix"]`, a `.{2,7}` longer than the suffix can only end on a `"]` of the text that follows. */
  lemma NoLongerFit(suffix: string, rest: string)
    requires 2 <= |suffix| <= 7
    requires forall j :: 0 <= j < 6 - |suffix| && j + 1 < |rest| ==> !(rest[j] == '"' && rest[j + 1] == ']')
    ensures forall k' :: |suffix| < k' <= 7 ==> !Fits(suffix + Closing + rest, k')
  {
    var t := suffix + Closing + rest;
    var k := |suffix|;
    assert t[k + 1] == ']';
    forall k' | k < k' <= 7 ensures !Fits(t, k') {
      if k' + 2 <= |t| {
        var c := t[k'..k' + 2];
        assert c[0] == t[k'] && c[1] == t[k' + 1];
        if k' == k + 1 {
          assert t[k'] == ']';
        } else {
          var j := k' - k - 2;
          assert t[k'] == rest[j] && t[k' + 1] == rest[j + 1];
          assert 0 <= j < 6 - k && j + 1 < |rest|;
        }
      }
    }
  }

  /**
   * A get of a `name_` property followed by text that puts no `"]` where a
   * longer `.{2,7}` could end is matched as exactly that get.
   */
  lemma NameGetBeforeText(suffix: string, rest: string)
    requires 2 <= |suffix| <= 7
    requires forall j :: 0 <= j < |suffix| ==> !IsLineTerminator(suffix[j])
    requires forall j :: 0 <= j < 6 - |suffix| && j + 1 < |rest| ==> !(rest[j] == '"' && rest[j + 1] == ']')
    ensures MatchLength(NameGet, GetHead + NameHead + suffix + Closing + rest) == Some(15 + |suffix|)
  {
    assert GetHead + [] == GetHead;
    var g := GetHead + NameHead + suffix + Closing;
    NameGetShapeOf([], suffix);
    NameGetShapeExtends(g, rest, 0, |suffix|);
    var s := g + rest;
    var h := GetHead + NameHead;
    var t := suffix + Closing + rest;
    StringAssoc(h + suffix, Closing, rest);
    StringAssoc(h, suffix, Closing + rest);
    StringAssoc(suffix, Closing, rest);
    assert s == h + t;
    assert s[|h|..] == t;
    NoLongerFit(suffix, rest);
    NameGetExact(s, 0, |suffix|, t);
  }

  /** The get of a bracket-free property, where no match starts, is copied and the pass goes on after it. */
  lemma UnmatchedGetCopied(p: Pattern, property: string, rest: string, r: string)
    requires BracketFree(property) && MatchLength(p, GetJson(property) + rest).None?
    ensures ReplaceAll(p, GetJson(property) + rest, r) == GetJson(property) + ReplaceAll(p, rest, r)
  {
    var g := GetJson(property);
    var gt := g[1..];
    assert g == "[" + gt;
    assert '[' !in gt by {
      assert gt == "\"get\",\"" + property + "\"]";
    }
    StringAssoc("[", gt, rest);
    UnmatchedBracket(p, gt + rest, r);
    BracketFreeHead(p, gt, rest, r);
    StringAssoc("[", gt, ReplaceAll(p, rest, r));
  }

  /** The abbr pass copies the get of a bracket-free language other than `abbr` and goes on after it. */
  lemma AbbrPassCopiesGet(language: string, rest: string, r: string)
    requires BracketFree(language) && language != "abbr"
    ensures ReplaceAll(AbbrGet, GetJson(language) + rest, r) == GetJson(language) + ReplaceAll(AbbrGet, rest, r)
  {
    var g := GetJson(language);
    var s := g + rest;
    assert s[7..] == g[7..] + rest;
    assert s[7..][0] == '"';
    assert WhitespaceRun(s[7..]) == 0;
    AbbrTailOfGet(language);
    if |language| >= 4 {
      assert s[7..][..7] == g[7..][..7];
    } else {
      assert s[7..][|language| + 1] == '"';
    }
    assert MatchLength(AbbrGet, s).None?;
    UnmatchedGetCopied(AbbrGet, language, rest, r);
  }

  /** The name pass copies the get of a bracket-free property that does not start with `name_`. */
  lemma NamePassCopiesGet(property: string, rest: string, r: string)
    requires BracketFree(property) && !(NameHead[1..] <= property)
    ensures ReplaceAll(NameGet, GetJson(property) + rest, r) == GetJson(property) + ReplaceAll(NameGet, rest, r)
  {
    var g := GetJson(property);
    var s := g + rest;
    var after := s[7..];
    assert after == "\"" + property + "\"]" + rest;
    assert after[0] == '"';
    assert WhitespaceRun(after) == 0;
    assert !(NameHead <= after) by {
      if |property| >= 5 {
        assert after[1..6] == property[..5];
      } else {
        assert after[|property| + 1] == '"';
      }
    }
    assert MatchLength(NameGet, s).None?;
    UnmatchedGetCopied(NameGet, property, rest, r);
  }

  /**
   * A `name_` get whose suffix is shorter than 2 or longer than 7 characters,
   * such as `["get","name_x"]` or `["get","name_zh-Hant-TW"]`, is no match of
   * the name pattern: `.{2,7}"]` cannot end at its `"]`, nor (for a short
   * suffix) at a `"]` early in the text after it. The name pass copies it.
   */
  lemma NamePassCopiesOddName(suffix: string, rest: string, r: string)
    requires BracketFree(suffix) && (|suffix| < 2 || |suffix| > 7)
    requires forall j :: 0 <= j < 6 - |suffix| && j + 1 < |rest| ==> !(rest[j] == '"' && rest[j + 1] == ']')
    ensures ReplaceAll(NameGet, GetJson("name_" + suffix) + rest, r)
         == GetJson("name_" + suffix) + ReplaceAll(NameGet, rest, r)
  {
    var property := "name_" + suffix;
    assert BracketFree(property) by {
      assert forall c :: c in property ==> c in "name_" || c in suffix;
    }
    var s := GetJson(property) + rest;
    var after := s[7..];
    assert after == NameHead + suffix + Closing + rest;
    assert after[0] == '"';
    assert WhitespaceRun(after) == 0;
    var t := after[6..];
    assert t == suffix + Closing + rest;
    var n := |suffix|;
    forall k | 2 <= k <= 7 ensures !Fits(t, k) {
      if k + 2 <= |t| {
        assert t[k..k + 2][0] == t[k] && t[k..k + 2][1] == t[k + 1];
        if k + 1 < n {
          assert t[k + 1] == suffix[k + 1] && suffix[k + 1] in suffix;
        } else if k + 1 == n {
          assert t[k + 1] == '"';
        } else if k == n + 1 {
          assert t[k] == ']';
        } else {
          assert t[k] == rest[k - n - 2] && t[k + 1] == rest[k - n - 1];
        }
      }
    }
    assert MatchLength(NameGet, s).None?;
    UnmatchedGetCopied(NameGet, property, rest, r);
  }

  /**
   * Both passes copy the get of a bracket-free property other than `abbr`
   * that does not start with `name_`, and go on after it.
   */
  lemma OtherGetCopied(p: Pattern, property: string, rest: string, r: string)
    requires BracketFree(property) && property != "abbr" && !(NameHead[1..] <= property)
    ensures ReplaceAll(p, GetJson(property) + rest, r) == GetJson(property) + ReplaceAll(p, rest, r)
  {
    if p == AbbrGet {
      AbbrPassCopiesGet(property, rest, r);
    } else {
      NamePassCopiesGet(property, rest, r);
    }
  }

  /** A `[` that does not open `["get",`, and the bracket-free text after it, are copied through. */
  lemma BracketThenFree(p: Pattern, a: string, x: string, r: string)
    requires '[' !in a && |a| >= 2 && a[1] != 'g'
    ensures ReplaceAll(p, "[" + a + x, r) == "[" + a + ReplaceAll(p, x, r)
  {
    var s := "[" + (a + x);
    assert s[2] == a[1];
    NoGetHead(p, s);
    UnmatchedBracket(p, a + x, r);
    BracketFreeHead(p, a, x, r);
    StringAssoc("[", a, x);
    StringAssoc("[", a, ReplaceAll(p, x, r));
  }

  /** The text before the first get of the documented expression. */
  const DocHead: string := "[\"format\",[\"coalesce\","
  /** The text after the first get of the documented expression. */
  const DocTail: string := ",[\"get\",\"name\"]],{}]"
  /** The English name get of the documented expression. */
  const DocEnglishGet: string := "[\"get\",\"name_en\"]"
  /**
   * The text-field expression of the example in the documentation of
   * setMapLanguage: `["format",["coalesce",["get","name_en"],["get","name"]],{}]`.
   */
  const DocExpression: string := DocHead + DocEnglishGet + DocTail

  /** Two bracket-opened texts that open no get are copied through, and the pass goes on after them. */
  lemma {:induction false} TwoBracketsThenFree(p: Pattern, a: string, b: string, x: string, r: string)
    requires '[' !in a && |a| >= 2 && a[1] != 'g'
    requires '[' !in b && |b| >= 2 && b[1] != 'g'
    ensures ReplaceAll(p, "[" + a + ("[" + b + x), r) == "[" + a + ("[" + b + ReplaceAll(p, x, r))
  {
    BracketThenFree(p, a, "[" + b + x, r);
    BracketThenFree(p, b, x, r);
  }

  /** The head `["format",["coalesce",` of the documented expression holds no match and is copied through. */
  lemma DocHeadCopied(p: Pattern, x: string, r: string)
    ensures ReplaceAll(p, DocHead + x, r) == DocHead + ReplaceAll(p, x, r)
  {
    DocHeadSplit(x);
    DocHeadSplit(ReplaceAll(p, x, r));
    TwoBracketsThenFree(p, "\"format\",", "\"coalesce\",", x, r);
  }

  /** The head of the documented expression is two bracket-opened texts. */
  lemma DocHeadSplit(x: string)
    ensures DocHead + x == "[" + "\"format\"," + ("[" + "\"coalesce\"," + x)
  {
  }

  /** The tail `,["get","name"]],{}]` of the documented expression holds no match of either pattern. */
  lemma DocTailCopied(p: Pattern, r: string)
    ensures ReplaceAll(p, DocTail, r) == DocTail
  {
    DocTailSplit();
    var end := "],{}]";
    assert '[' !in end;
    NoBracketUnchanged(p, end, r);
    OtherGetCopied(p, "name", end, r);
    assert '[' !in ",";
    BracketFreeHead(p, ",", GetJson("name") + end, r);
  }

  /** The tail of the documented expression is a comma, the get of `name` and a closing text. */
  lemma DocTailSplit()
    ensures DocTail == "," + (GetJson("name") + "],{}]")
  {
  }

  /** The English name get of the documented expression, followed by its tail, is replaced and the tail copied. */
  lemma DocEnglishReplaced(g: string)
    ensures ReplaceAll(NameGet, GetHead + NameHead + "en" + Closing + DocTail, g) == g + DocTail
  {
    var en := GetHead + NameHead + "en" + Closing;
    assert DocTail[0] == ',' && DocTail[1] == '[' && DocTail[2] == '"' && DocTail[3] == 'g';
    NameGetBeforeText("en", DocTail);
    assert |en| == 17;
    MatchedHead(NameGet, en, DocTail, g);
    DocTailCopied(NameGet, g);
  }

  /** The name pass of the documented example puts the get of `language` in place of the English name. */
  lemma DocNamePass(language: string)
    ensures ReplaceAll(NameGet, DocHead + (GetHead + NameHead + "en" + Closing + DocTail), GetJson(language))
         == DocHead + (GetJson(language) + DocTail)
  {
    var g := GetJson(language);
    DocHeadCopied(NameGet, GetHead + NameHead + "en" + Closing + DocTail, g);
    DocEnglishReplaced(g);
  }

  /** The abbr pass of the documented example leaves the localized expression as it is. */
  lemma DocAbbrPass(language: string)
    requires BracketFree(language) && language != "abbr"
    ensures ReplaceAll(AbbrGet, DocHead + (GetJson(language) + DocTail), GetJson(language))
         == DocHead + (GetJson(language) + DocTail)
  {
    var g := GetJson(language);
    DocHeadCopied(AbbrGet, g + DocTail, g);
    AbbrPassCopiesGet(language, DocTail, g);
    DocTailCopied(AbbrGet, g);
  }

  /**
   * The documented example, for any bracket-free language other than `abbr`:
   * the English name get is replaced by the get of `language`, and the plain
   * `["get","name"]` fallback stays.
   */
  lemma DocExample(language: string)
    requires LiteralSafe(language) && BracketFree(language) && language != "abbr"
    ensures ConvertExpression(language, DocExpression) == DocHead + GetJson(language) + DocTail
  {
    var doc := DocHead + (GetHead + NameHead + "en" + Closing + DocTail);
    assert DocEnglishGet == GetHead + NameHead + "en" + Closing;
    assert doc == DocExpression;
    DocNamePass(language);
    DocAbbrPass(language);
  }

}
