/** `extract_keywords`: the terrain-relevant words named in a request, listed
    in the order of the fixed keyword list, each at most once. */
module Keywords {
  import opened TextMatch

  const TerrainKeywords: seq<string> := [
    "mountain", "mountains", "hill", "hills", "valley", "valleys",
    "flat", "plain", "plains", "plateau", "mesa"
  ]

  const FeatureKeywords: seq<string> := [
    "river", "stream", "water", "rough", "smooth", "jagged",
    "gentle", "steep", "rocky", "grassy", "forest"
  ]

  const SizeKeywords: seq<string> := [
    "large", "big", "huge", "small", "tiny", "massive", "mini"
  ]

  /** The list scanned, in scanning order. */
  const AllKeywords: seq<string> := TerrainKeywords + FeatureKeywords + SizeKeywords

  /** The words of `words`, in order, that occur in `t`. Built from the end
      so that it grows the way the scanning loop's list does. */
  function Hits(words: seq<string>, t: string): seq<string>
  {
    if words == [] then []
    else
      var last := words[|words| - 1];
      Hits(words[..|words| - 1], t) + (if Contains(last, t) then [last] else [])
  }

  /** `extract_keywords(text)`: scan the keyword list and keep each keyword
      found in the lower-cased text. */
  method ExtractKeywords(text: string) returns (keywords: seq<string>)
    ensures keywords == Hits(AllKeywords, Lower(text))
  {
    keywords := [];
    var textLower := Lower(text);
    var i := 0;
    while i < |AllKeywords|
      invariant 0 <= i <= |AllKeywords|
      invariant keywords == Hits(AllKeywords[..i], textLower)
    {
      var keyword := AllKeywords[i];
      assert AllKeywords[..i + 1][..i] == AllKeywords[..i];
      if Contains(keyword, textLower) {
        keywords := keywords + [keyword];
      }
      i := i + 1;
    }
    assert AllKeywords[..i] == AllKeywords;
  }

  /** A word is reported exactly when it is listed and occurs in the text. */
  lemma {:induction false} HitsMembership(words: seq<string>, t: string, w: string)
    ensures w in Hits(words, t) <==> w in words && Contains(w, t)
  {
    if words != [] {
      var init := words[..|words| - 1];
      HitsMembership(init, t, w);
      assert words == init + [words[|words| - 1]];
    }
  }

  /** No list is longer than the list scanned. */
  lemma {:induction false} HitsLength(words: seq<string>, t: string)
    ensures |Hits(words, t)| <= |words|
  {
    if words != [] {
      HitsLength(words[..|words| - 1], t);
    }
  }

  /** Every element of `s` appears once. */
  predicate Distinct(s: seq<string>) {
    forall i, j :: 0 <= i < j < |s| ==> s[i] != s[j]
  }

  /** A list scanned without repeats reports no word twice. */
  lemma {:induction false} HitsDistinct(words: seq<string>, t: string)
    requires Distinct(words)
    ensures Distinct(Hits(words, t))
  {
    if words != [] {
      var init, last := words[..|words| - 1], words[|words| - 1];
      assert Distinct(init);
      HitsDistinct(init, t);
      HitsMembership(init, t, last);
      assert last !in init;
    }
  }

  /** Reported words keep the order of the list scanned: of two reported
      words, the earlier one is listed earlier. */
  lemma {:induction false} HitsKeepOrder(words: seq<string>, t: string, i: int, j: int)
    requires 0 <= i < j < |Hits(words, t)|
    ensures exists a, b :: 0 <= a < b < |words| && words[a] == Hits(words, t)[i] && words[b] == Hits(words, t)[j]
  {
    var init, last := words[..|words| - 1], words[|words| - 1];
    var h := Hits(words, t);
    if j < |Hits(init, t)| {
      HitsKeepOrder(init, t, i, j);
      var a, b :| 0 <= a < b < |init| && init[a] == Hits(init, t)[i] && init[b] == Hits(init, t)[j];
      assert words[a] == h[i] && words[b] == h[j];
    } else {
      HitsMembership(init, t, h[i]);
      assert h[i] == Hits(init, t)[i];
      var a :| 0 <= a < |init| && init[a] == h[i];
      assert words[a] == h[i] && words[|words| - 1] == h[j];
    }
  }

  /** The keyword list has no repeats, so no keyword is reported twice. */
  lemma AllKeywordsDistinct()
    ensures Distinct(AllKeywords)
  {
  }

  /** The list `extract_keywords` returns never repeats a keyword. */
  lemma ExtractedDistinct(text: string)
    ensures Distinct(Hits(AllKeywords, Lower(text)))
  {
    AllKeywordsDistinct();
    HitsDistinct(AllKeywords, Lower(text));
  }

  /** "mountains" is reported together with "mountain", which it contains. */
  lemma MountainsReportsBoth(t: string)
    requires Contains("mountains", t)
    ensures "mountain" in Hits(AllKeywords, t) && "mountains" in Hits(AllKeywords, t)
  {
    ContainsIffOccurs("mountains", t);
    assert OccursAt("mountain", "mountains", 0);
    OccursTransitive("mountain", "mountains", t);
    ContainsIffOccurs("mountain", t);
    assert AllKeywords[0] == "mountain" && AllKeywords[1] == "mountains";
    HitsMembership(AllKeywords, t, "mountain");
    HitsMembership(AllKeywords, t, "mountains");
  }
}
