/**
 * `parseJSONSafely`: the text of a description is cleaned by a fixed chain of replacements, trimmed,
 * and handed to `JSON.parse`; anything that throws on the way gives `null` (here `None`).
 */
module JsonUtils {
  import opened Wrappers
  import opened JsText
  import opened Ledger

  /** The characters of the class [​-‍﻿]. */
  predicate IsZeroWidth(c: char) {
    '\U{200B}' <= c <= '\U{200D}' || c == '\U{FEFF}'
  }

  /** No '<' is followed, anywhere later, by a '>': nothing is left that looks like a tag. */
  predicate NoTagPair(s: string) {
    forall i, j :: 0 <= i < j < |s| && s[i] == '<' ==> s[j] != '>'
  }

  /**
   * `s.replace(/<[^>]*>/g, "")`: from each '<' up to the first '>' after it is removed; a '<' with no
   * '>' after it matches nothing, and neither does any later '<'.
   */
  function StripTags(s: string): (r: string)
    ensures NoTagPair(r)
    ensures forall c :: c in r ==> c in s
    decreases |s|
  {
    if s == [] then []
    else if s[0] == '<' then
      match IndexOf(s, ">")
      case Some(j) => StripTags(s[j + 1..])
      case None => OccursChar(s, '>'); s
    else [s[0]] + StripTags(s[1..])
  }

  /** `s.replace(/[​-‍﻿]/g, "")`. */
  function RemoveZeroWidth(s: string): (r: string)
    ensures forall c :: c in r ==> c in s && !IsZeroWidth(c)
  {
    if s == [] then []
    else (if IsZeroWidth(s[0]) then [] else [s[0]]) + RemoveZeroWidth(s[1..])
  }

  /** Lines 5 to 8: tags and zero-width characters removed, no-break spaces made plain, lines joined. */
  function Flatten(s: string): string {
    var noTags := StripTags(s);
    var visible := RemoveZeroWidth(noTags);
    var spaced := ReplaceAll(visible, "\U{00A0}", " ");
    ReplaceAll(spaced, "\n", "")
  }

  /** Lines 10 and 11: `&quot;` decoded first, then `&amp;`. */
  function DecodeEntities(s: string): string {
    ReplaceAll(ReplaceAll(s, "&quot;", "\""), "&amp;", "&")
  }

  /** The cleaned text: src/utils/jsonUtils.js lines 4 to 12 in order. */
  function Clean(s: string): (r: string)
    ensures r != [] ==> !IsSpace(r[0]) && !IsSpace(r[|r| - 1])
  {
    var noBreaks := ReplaceAll(Flatten(s), "<br>", "");
    Trim(DecodeEntities(noBreaks))
  }

  /** `parseJSONSafely(input)`: `None` for input that is not a string or text that does not parse. */
  function ParseJsonSafely(input: Option<string>, parse: JsonParser): (r: Option<Json>)
    ensures input.None? ==> r.None?
    ensures input.Some? ==> r == parse(Clean(input.value))
  {
    match input
    case None => None
    case Some(s) => parse(Clean(s))
  }

  lemma NoTagPairJoin(x: string, y: string)
    requires NoTagPair(x) && NoTagPair(y)
    requires '<' in x ==> '>' !in y
    ensures NoTagPair(x + y)
  {
    var xy := x + y;
    forall i, j | 0 <= i < j < |xy| && xy[i] == '<' ensures xy[j] != '>' {
      if j >= |x| {
        assert xy[j] == y[j - |x|];
        if i < |x| {
          assert x[i] == '<';
        } else {
          assert xy[i] == y[i - |x|];
        }
      } else {
        assert xy[i] == x[i] && xy[j] == x[j];
      }
    }
  }

  lemma NoTagPairSlice(s: string, a: nat, b: nat)
    requires NoTagPair(s) && a <= b <= |s|
    ensures NoTagPair(s[a..b])
  {
    var t := s[a..b];
    forall i, j | 0 <= i < j < |t| && t[i] == '<' ensures t[j] != '>' {
      assert t[i] == s[a + i] && t[j] == s[a + j];
    }
  }

  /** A text that opens with '<' has no '>' after it. */
  lemma NoCloseAfterOpen(s: string)
    requires NoTagPair(s) && s != []
    ensures s[0] == '<' ==> '>' !in s[1..]
  {
    if s[0] == '<' {
      forall j | 0 <= j < |s| - 1 ensures s[1..][j] != '>' {
        assert s[1..][j] == s[j + 1];
      }
    }
  }

  /** Dropping characters keeps the property. */
  lemma {:induction false} RemoveZeroWidthKeepsNoTagPair(s: string)
    requires NoTagPair(s)
    ensures NoTagPair(RemoveZeroWidth(s))
  {
    if s != [] {
      NoTagPairSlice(s, 1, |s|);
      RemoveZeroWidthKeepsNoTagPair(s[1..]);
      var rest := RemoveZeroWidth(s[1..]);
      NoCloseAfterOpen(s);
      NoTagPairJoin(if IsZeroWidth(s[0]) then [] else [s[0]], rest);
    }
  }

  /** A literal replacement that brings in neither '<' nor '>' keeps the property. */
  lemma {:induction false} ReplaceAllKeepsNoTagPair(s: string, pat: string, rep: string)
    requires pat != [] && '<' !in rep && '>' !in rep
    requires NoTagPair(s)
    ensures NoTagPair(ReplaceAll(s, pat, rep))
    decreases |s|
  {
    if |s| < |pat| {
    } else if s[..|pat|] == pat {
      NoTagPairSlice(s, |pat|, |s|);
      ReplaceAllKeepsNoTagPair(s[|pat|..], pat, rep);
      NoTagPairJoin(rep, ReplaceAll(s[|pat|..], pat, rep));
    } else {
      NoTagPairSlice(s, 1, |s|);
      ReplaceAllKeepsNoTagPair(s[1..], pat, rep);
      var rest := ReplaceAll(s[1..], pat, rep);
      NoCloseAfterOpen(s);
      NoTagPairJoin([s[0]], rest);
    }
  }

  /** A text with no tag pair has no "<br>" in it. */
  lemma NoTagPairHasNoBreak(s: string)
    requires NoTagPair(s)
    ensures !Occurs(s, "<br>")
  {
    forall i | 0 <= i <= |s| ensures !At(s, i, "<br>") {
      if i + 4 <= |s| {
        assert s[i..i + 4][0] == s[i] && s[i..i + 4][3] == s[i + 3];
      }
    }
  }

  /** Tags are gone before the `<br>` removal, so that removal never changes the text. */
  lemma BreakRemovalIsNoOp(s: string)
    ensures ReplaceAll(Flatten(s), "<br>", "") == Flatten(s)
    ensures NoTagPair(Flatten(s))
  {
    var visible := RemoveZeroWidth(StripTags(s));
    RemoveZeroWidthKeepsNoTagPair(StripTags(s));
    ReplaceAllKeepsNoTagPair(visible, "\U{00A0}", " ");
    ReplaceAllKeepsNoTagPair(ReplaceAll(visible, "\U{00A0}", " "), "\n", "");
    NoTagPairHasNoBreak(Flatten(s));
    ReplaceAllAbsent(Flatten(s), "<br>", "");
  }

  /** In the cleaned text no '<' is followed anywhere later by a '>'. */
  lemma CleanHasNoTagPair(s: string)
    ensures NoTagPair(Clean(s))
  {
    var oneLine := Flatten(s);
    BreakRemovalIsNoOp(s);
    ReplaceAllKeepsNoTagPair(oneLine, "&quot;", "\"");
    var decoded := DecodeEntities(oneLine);
    ReplaceAllKeepsNoTagPair(ReplaceAll(oneLine, "&quot;", "\""), "&amp;", "&");
    TrimIsSlice(decoded);
    var lead := |decoded| - |TrimStart(decoded)|;
    NoTagPairSlice(decoded, lead, lead + |Trim(decoded)|);
  }

  /** Neither a line feed, nor a no-break space, nor a zero-width character. */
  predicate Visible(c: char) {
    c != '\n' && c != '\U{00A0}' && !IsZeroWidth(c)
  }

  lemma FlattenVisible(s: string)
    ensures forall c :: c in Flatten(s) ==> Visible(c)
  {
    var visible := RemoveZeroWidth(StripTags(s));
    ReplaceAllRemovesChar(visible, '\U{00A0}', " ");
    var spaced := ReplaceAll(visible, "\U{00A0}", " ");
    ReplaceAllRemovesChar(spaced, '\n', "");
  }

  /** The cleaned text has no line feed, no no-break space and no zero-width character. */
  lemma CleanDropsInvisibles(s: string)
    ensures forall c :: c in Clean(s) ==> c != '\n' && c != '\U{00A0}' && !IsZeroWidth(c)
  {
    FlattenVisible(s);
    var noBreaks := ReplaceAll(Flatten(s), "<br>", "");
    assert forall c :: c in noBreaks ==> Visible(c);
    var quoted := ReplaceAll(noBreaks, "&quot;", "\"");
    assert forall c :: c in quoted ==> Visible(c);
    var decoded := ReplaceAll(quoted, "&amp;", "&");
    assert forall c :: c in decoded ==> Visible(c);
  }

  lemma StripTagsWithoutOpen(s: string)
    requires '<' !in s
    ensures StripTags(s) == s
  {
  }

  lemma RemoveZeroWidthWithout(s: string)
    requires forall k :: 0 <= k < |s| ==> !IsZeroWidth(s[k])
    ensures RemoveZeroWidth(s) == s
  {
  }

  /** Text with none of the characters the first steps act on passes them unchanged. */
  lemma FlattenPlain(s: string)
    requires forall k :: 0 <= k < |s| ==> s[k] != '<' && s[k] != '\n' && s[k] != '\U{00A0}' && !IsZeroWidth(s[k])
    ensures Flatten(s) == s
  {
    StripTagsWithoutOpen(s);
    RemoveZeroWidthWithout(s);
    OccursChar(s, '\U{00A0}');
    ReplaceAllAbsent(s, "\U{00A0}", " ");
    OccursChar(s, '\n');
    ReplaceAllAbsent(s, "\n", "");
  }

  /** `&quot;` is decoded before `&amp;`, so a doubly escaped quote comes out singly escaped. */
  lemma DoublyEscapedQuote(s: string)
    requires s == "&amp;quot;"
    ensures Clean(s) == "&quot;"
  {
    PlainPassesFlatten(s);
    DecodeDoublyEscapedQuote();
    CleanDecodes(s);
  }

  /** Text the first five steps leave alone is cleaned by decoding and trimming alone. */
  lemma CleanDecodes(s: string)
    requires ReplaceAll(Flatten(s), "<br>", "") == s
    requires var d := DecodeEntities(s); d != [] ==> !IsSpace(d[0]) && !IsSpace(d[|d| - 1])
    ensures Clean(s) == DecodeEntities(s)
  {
    var d := DecodeEntities(s);
    TrimPadding([], d, []);
    assert [] + d + [] == d;
  }

  lemma PlainPassesFlatten(s: string)
    requires s == "&amp;quot;"
    ensures ReplaceAll(Flatten(s), "<br>", "") == s
  {
    FlattenPlain(s);
    NoTagPairHasNoBreak(s);
    ReplaceAllAbsent(s, "<br>", "");
  }

  lemma DecodeDoublyEscapedQuote()
    ensures DecodeEntities("&amp;quot;") == "&quot;"
  {
    var s := "&amp;quot;";
    forall i | 0 <= i <= |s| ensures !At(s, i, "&quot;") {
      if i + 6 <= |s| {
        assert s[i..i + 6][0] == s[i] && s[i..i + 6][1] == s[i + 1];
      }
    }
    ReplaceAllAbsent(s, "&quot;", "\"");
    AmpersandStep();
  }

  lemma AmpersandStep()
    ensures ReplaceAll("&amp;quot;", "&amp;", "&") == "&quot;"
  {
    var s := "&amp;quot;";
    assert s[..5] == "&amp;";
    assert s[5..] == "quot;";
    assert "quot;"[..5][0] != "&amp;"[0];
    assert ReplaceAll("uot;", "&amp;", "&") == "uot;";
  }
}
