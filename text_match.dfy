/** The two text primitives the keyword resolver is built from: lower-casing
    (`s.lower()`, restricted to ASCII) and the substring test `word in text`,
    together with the two ways the resolver combines them: "any of these words
    occurs" and "first category, in a fixed order, whose words occur". */
module TextMatch {

  datatype Option<T> = None | Some(value: T)

  predicate IsUpper(c: char) {
    'A' <= c <= 'Z'
  }

  function LowerChar(c: char): char {
    if IsUpper(c) then (c as int + 32) as char else c
  }

  /** ASCII lower-casing: each upper-case letter becomes its lower-case
      letter, every other character is kept. */
  function Lower(s: string): (r: string)
    ensures |r| == |s|
    ensures forall i :: 0 <= i < |s| && IsUpper(s[i]) ==> r[i] as int == s[i] as int + 32
    ensures forall i :: 0 <= i < |s| && !IsUpper(s[i]) ==> r[i] == s[i]
    ensures forall i :: 0 <= i < |r| ==> !IsUpper(r[i])
  {
    seq(|s|, i requires 0 <= i < |s| => LowerChar(s[i]))
  }

  /** Lower-casing twice is lower-casing once. */
  lemma LowerIdempotent(s: string)
    ensures Lower(Lower(s)) == Lower(s)
  {
    var once := Lower(s);
    var twice := Lower(once);
    assert forall i :: 0 <= i < |once| ==> twice[i] == once[i];
  }

  /** `w` occurs in `t` starting at index `i`. */
  ghost predicate OccursAt(w: string, t: string, i: int) {
    0 <= i && i + |w| <= |t| && t[i..i + |w|] == w
  }

  /** `w` is a substring of `t`. */
  ghost predicate Occurs(w: string, t: string) {
    exists i :: OccursAt(w, t, i)
  }

  /** Python's `w in t` on strings: scan `t` for a prefix equal to `w`. */
  function Contains(w: string, t: string): bool
    decreases |t|
  {
    if |t| < |w| then false
    else if t[..|w|] == w then true
    else Contains(w, t[1..])
  }

  /** The scan finds `w` exactly when `w` is a substring of `t`. */
  lemma {:induction false} ContainsIffOccurs(w: string, t: string)
    ensures Contains(w, t) <==> Occurs(w, t)
    decreases |t|
  {
    if |t| < |w| {
      assert forall i :: !OccursAt(w, t, i);
    } else if t[..|w|] == w {
      assert OccursAt(w, t, 0);
    } else {
      ContainsIffOccurs(w, t[1..]);
      if Occurs(w, t) {
        var i :| OccursAt(w, t, i);
        assert i != 0;
        assert t[1..][i - 1..i - 1 + |w|] == t[i..i + |w|];
        assert OccursAt(w, t[1..], i - 1);
      }
      if Occurs(w, t[1..]) {
        var i :| OccursAt(w, t[1..], i);
        assert t[i + 1..i + 1 + |w|] == t[1..][i..i + |w|];
        assert OccursAt(w, t, i + 1);
      }
    }
  }

  /** A substring of a substring of `t` is a substring of `t`. */
  lemma OccursTransitive(u: string, w: string, t: string)
    requires Occurs(u, w) && Occurs(w, t)
    ensures Occurs(u, t)
  {
    var i :| OccursAt(u, w, i);
    var j :| OccursAt(w, t, j);
    forall k | 0 <= k < |u| ensures t[j + i + k] == u[k] {
      assert u[k] == w[i + k] == t[j + i + k];
    }
    assert t[j + i..j + i + |u|] == u;
    assert OccursAt(u, t, j + i);
  }

  /** A word holding a character that `t` lacks is not in `t`. */
  lemma AbsentCharRulesOut(w: string, t: string, c: char)
    requires c in w && c !in t
    ensures !Contains(w, t)
  {
    var k :| 0 <= k < |w| && w[k] == c;
    forall i | 0 <= i ensures !OccursAt(w, t, i) {
      if i + |w| <= |t| {
        assert t[i..i + |w|][k] == t[i + k] != c;
      }
    }
    ContainsIffOccurs(w, t);
  }

  /** A word that occurs at a known index is in `t`. */
  lemma ContainsAt(w: string, t: string, i: int)
    requires OccursAt(w, t, i)
    ensures Contains(w, t)
  {
    ContainsIffOccurs(w, t);
  }

  /** Python's `any(word in t for word in words)`. */
  predicate AnyIn(words: seq<string>, t: string) {
    words != [] && (Contains(words[0], t) || AnyIn(words[1..], t))
  }

  /** `AnyIn` holds exactly when some listed word is in `t`. */
  lemma {:induction false} AnyInIff(words: seq<string>, t: string)
    ensures AnyIn(words, t) <==> exists i :: 0 <= i < |words| && Contains(words[i], t)
  {
    if words != [] {
      AnyInIff(words[1..], t);
      if AnyIn(words[1..], t) {
        var i :| 0 <= i < |words[1..]| && Contains(words[1..][i], t);
        assert words[i + 1] == words[1..][i];
      }
      if exists i :: 0 <= i < |words| && Contains(words[i], t) {
        var i :| 0 <= i < |words| && Contains(words[i], t);
        if i > 0 {
          assert words[1..][i - 1] == words[i];
        }
      }
    }
  }

  /** A listed word found in `t` makes `AnyIn` hold. */
  lemma AnyInAt(words: seq<string>, t: string, i: int)
    requires 0 <= i < |words| && Contains(words[i], t)
    ensures AnyIn(words, t)
  {
    AnyInIff(words, t);
  }

  /** One alternative of a first-match-wins keyword category: the tag it
      selects and the words that select it. */
  datatype Rule<T> = Rule(tag: T, words: seq<string>)

  /** Rule `i` is the one an `if`/`elif` chain over `rules` takes on `t`:
      some word of it occurs and no word of an earlier rule does. */
  ghost predicate WinsAt<T>(rules: seq<Rule<T>>, t: string, i: int) {
    && 0 <= i < |rules|
    && AnyIn(rules[i].words, t)
    && forall j :: 0 <= j < i ==> !AnyIn(rules[j].words, t)
  }

  /** The tag of the first rule, in order, having a word that occurs in `t`. */
  function FirstMatch<T>(rules: seq<Rule<T>>, t: string): (r: Option<T>)
    ensures r.None? <==> forall i :: 0 <= i < |rules| ==> !AnyIn(rules[i].words, t)
  {
    if rules == [] then None
    else if AnyIn(rules[0].words, t) then Some(rules[0].tag)
    else FirstMatch(rules[1..], t)
  }

  /** The winning rule decides the match. */
  lemma {:induction false} FirstMatchWins<T>(rules: seq<Rule<T>>, t: string, i: int)
    requires WinsAt(rules, t, i)
    ensures FirstMatch(rules, t) == Some(rules[i].tag)
    decreases i
  {
    if i > 0 {
      assert !AnyIn(rules[0].words, t);
      assert WinsAt(rules[1..], t, i - 1) by {
        forall j | 0 <= j < i - 1 ensures !AnyIn(rules[1..][j].words, t) {
          assert rules[1..][j] == rules[j + 1];
        }
      }
      FirstMatchWins(rules[1..], t, i - 1);
    }
  }

  /** Every match comes from a winning rule. */
  lemma {:induction false} FirstMatchHasWinner<T>(rules: seq<Rule<T>>, t: string, x: T)
    requires FirstMatch(rules, t) == Some(x)
    ensures exists i :: WinsAt(rules, t, i) && rules[i].tag == x
  {
    if AnyIn(rules[0].words, t) {
      assert WinsAt(rules, t, 0);
    } else {
      FirstMatchHasWinner(rules[1..], t, x);
      var i :| WinsAt(rules[1..], t, i) && rules[1..][i].tag == x;
      assert WinsAt(rules, t, i + 1) by {
        forall j | 0 <= j < i + 1 ensures !AnyIn(rules[j].words, t) {
          if j > 0 { assert rules[j] == rules[1..][j - 1]; }
        }
      }
    }
  }
}
