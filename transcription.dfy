/** `fallback_transcription`: the stand-in for speech recognition, which
    picks a canned request from the audio file's name. The file name's stem
    (the last path component without its extension) is taken as given. */
module Transcription {
  import opened TextMatch

  /** Keyword and canned phrase, in the insertion order of the source's
      dictionary, which is the order the loop tries them. */
  const FallbackPhrases: seq<(string, string)> := [
    ("mountain", "I want some mountains"),
    ("hill", "Make rolling hills"),
    ("valley", "Create valleys with a river"),
    ("flat", "I want a flat plain"),
    ("rough", "Make rough rocky terrain"),
    ("smooth", "Create smooth gentle hills")
  ]

  /** The phrase used when no keyword is in the stem. */
  const DefaultPhrase: string := "Create hilly terrain"

  /** The phrase of the first pair, in order, whose keyword occurs in `t`. */
  function FirstPhrase(pairs: seq<(string, string)>, t: string): string
  {
    if pairs == [] then DefaultPhrase
    else if Contains(pairs[0].0, t) then pairs[0].1
    else FirstPhrase(pairs[1..], t)
  }

  /** `fallback_transcription` on a file whose stem is `stem`: try the
      keywords in order on the lower-cased stem and return at the first hit. */
  method FallbackTranscription(stem: string) returns (phrase: string)
    ensures phrase == FirstPhrase(FallbackPhrases, Lower(stem))
  {
    var filename := Lower(stem);
    var i := 0;
    while i < |FallbackPhrases|
      invariant 0 <= i <= |FallbackPhrases|
      invariant FirstPhrase(FallbackPhrases[i..], filename) == FirstPhrase(FallbackPhrases, filename)
    {
      var (keyword, candidate) := FallbackPhrases[i];
      if Contains(keyword, filename) {
        return candidate;
      }
      assert FallbackPhrases[i..][1..] == FallbackPhrases[i + 1..];
      i := i + 1;
    }
    phrase := DefaultPhrase;
  }

  /** Pair `i` is the first whose keyword occurs in `t`. */
  ghost predicate FirstHitAt(pairs: seq<(string, string)>, t: string, i: int) {
    && 0 <= i < |pairs|
    && Contains(pairs[i].0, t)
    && forall j :: 0 <= j < i ==> !Contains(pairs[j].0, t)
  }

  /** The first keyword found decides the phrase. */
  lemma {:induction false} FirstHitChosen(pairs: seq<(string, string)>, t: string, i: int)
    requires FirstHitAt(pairs, t, i)
    ensures FirstPhrase(pairs, t) == pairs[i].1
    decreases i
  {
    if i > 0 {
      assert !Contains(pairs[0].0, t);
      assert FirstHitAt(pairs[1..], t, i - 1) by {
        forall j | 0 <= j < i - 1 ensures !Contains(pairs[1..][j].0, t) {
          assert pairs[1..][j] == pairs[j + 1];
        }
      }
      FirstHitChosen(pairs[1..], t, i - 1);
    }
  }

  /** With no keyword in `t` the default phrase is returned. */
  lemma {:induction false} NoHitGivesDefault(pairs: seq<(string, string)>, t: string)
    requires forall j :: 0 <= j < |pairs| ==> !Contains(pairs[j].0, t)
    ensures FirstPhrase(pairs, t) == DefaultPhrase
  {
    if pairs != [] {
      assert forall j :: 0 <= j < |pairs[1..]| ==> pairs[1..][j] == pairs[j + 1];
      NoHitGivesDefault(pairs[1..], t);
    }
  }

  /** Once some keyword occurs, the phrase is that of a pair no later than
      it. */
  lemma {:induction false} HitGivesListedPhrase(pairs: seq<(string, string)>, t: string, k: int)
    requires 0 <= k < |pairs| && Contains(pairs[k].0, t)
    ensures exists i :: 0 <= i <= k && FirstPhrase(pairs, t) == pairs[i].1
  {
    if !Contains(pairs[0].0, t) {
      assert pairs[1..][k - 1] == pairs[k];
      HitGivesListedPhrase(pairs[1..], t, k - 1);
      var i :| 0 <= i <= k - 1 && FirstPhrase(pairs[1..], t) == pairs[1..][i].1;
      assert FirstPhrase(pairs, t) == pairs[i + 1].1;
    } else {
      assert FirstPhrase(pairs, t) == pairs[0].1;
    }
  }

  /** The default phrase is returned exactly when no keyword is in the stem:
      no listed phrase equals it. */
  lemma DefaultIff(stem: string)
    ensures FirstPhrase(FallbackPhrases, Lower(stem)) == DefaultPhrase <==>
      forall j :: 0 <= j < |FallbackPhrases| ==> !Contains(FallbackPhrases[j].0, Lower(stem))
  {
    var t := Lower(stem);
    if forall j :: 0 <= j < |FallbackPhrases| ==> !Contains(FallbackPhrases[j].0, t) {
      NoHitGivesDefault(FallbackPhrases, t);
    } else {
      var k :| 0 <= k < |FallbackPhrases| && Contains(FallbackPhrases[k].0, t);
      HitGivesListedPhrase(FallbackPhrases, t, k);
      var i :| 0 <= i <= k && FirstPhrase(FallbackPhrases, t) == FallbackPhrases[i].1;
      assert |FallbackPhrases[i].1| != |DefaultPhrase|;
    }
  }

  /** A stem naming a mountain gets the mountain phrase. */
  lemma MountainStem(stem: string)
    requires Contains("mountain", Lower(stem))
    ensures FirstPhrase(FallbackPhrases, Lower(stem)) == "I want some mountains"
  {
    assert FirstHitAt(FallbackPhrases, Lower(stem), 0);
    FirstHitChosen(FallbackPhrases, Lower(stem), 0);
  }

  /** A stem naming a hill but no mountain gets the hill phrase. */
  lemma HillStem(stem: string)
    requires !Contains("mountain", Lower(stem)) && Contains("hill", Lower(stem))
    ensures FirstPhrase(FallbackPhrases, Lower(stem)) == "Make rolling hills"
  {
    assert FirstHitAt(FallbackPhrases, Lower(stem), 1);
    FirstHitChosen(FallbackPhrases, Lower(stem), 1);
  }
}
