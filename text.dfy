/**
 * The two string operations the stage selector relies on: Python's
 * `str.lower()` (ASCII letters only) and the substring test `word in text`.
 */
module Text {

  function LowerChar(c: char): (d: char)
    ensures 'A' <= c <= 'Z' ==> d as int == c as int + 32
    ensures !('A' <= c <= 'Z') ==> d == c
  {
    if 'A' <= c <= 'Z' then (c as int + 32) as char else c
  }

  /** `s.lower()`, restricted to ASCII upper-case letters. */
  function Lower(s: string): (r: string)
    ensures |r| == |s|
    ensures forall k :: 0 <= k < |s| ==> r[k] == LowerChar(s[k])
  {
    seq(|s|, k requires 0 <= k < |s| => LowerChar(s[k]))
  }

  /** Lower-casing leaves no ASCII capital behind, so lower-casing twice changes nothing more. */
  lemma LowerIdempotent(s: string)
    ensures forall k :: 0 <= k < |Lower(s)| ==> !('A' <= Lower(s)[k] <= 'Z')
    ensures Lower(Lower(s)) == Lower(s)
  {
  }

  /** A text is its own lower-cased form iff it holds no ASCII capital. */
  lemma LowerFixedIff(s: string)
    ensures Lower(s) == s <==> forall k :: 0 <= k < |s| ==> !('A' <= s[k] <= 'Z')
  {
    if Lower(s) == s {
      forall k | 0 <= k < |s|
        ensures !('A' <= s[k] <= 'Z')
      {
        assert Lower(s)[k] == s[k];
      }
    }
  }

  lemma LowerAppend(a: string, b: string)
    ensures Lower(a + b) == Lower(a) + Lower(b)
  {
    assert forall k | 0 <= k < |a + b| :: Lower(a + b)[k] == (Lower(a) + Lower(b))[k];
  }

  /** Characters `w[j..]` occur in `s` starting at position `i + j`. */
  predicate MatchesAt(s: string, w: string, i: nat, j: nat)
    decreases |w| - j
  {
    j >= |w| || (i + j < |s| && s[i + j] == w[j] && MatchesAt(s, w, i, j + 1))
  }

  /** `w` occurs in `s` at some position at or after `i`. */
  predicate ContainsFrom(s: string, w: string, i: nat)
    decreases |s| - i
  {
    i + |w| <= |s| && (MatchesAt(s, w, i, 0) || ContainsFrom(s, w, i + 1))
  }

  /** Python's `w in s` for strings. */
  predicate Contains(s: string, w: string)
  {
    ContainsFrom(s, w, 0)
  }

  /** Reference definition of an occurrence, by slicing. */
  ghost predicate OccursAt(s: string, w: string, k: nat)
  {
    k + |w| <= |s| && s[k..k + |w|] == w
  }

  lemma {:induction false} MatchesAtIff(s: string, w: string, i: nat, j: nat)
    requires i + |w| <= |s| && j <= |w|
    ensures MatchesAt(s, w, i, j) <==> s[i + j..i + |w|] == w[j..]
    decreases |w| - j
  {
    if j < |w| {
      MatchesAtIff(s, w, i, j + 1);
      assert s[i + j..i + |w|] == [s[i + j]] + s[i + j + 1..i + |w|];
      assert w[j..] == [w[j]] + w[j + 1..];
    }
  }

  lemma {:induction false} ContainsFromIff(s: string, w: string, i: nat)
    ensures ContainsFrom(s, w, i) <==> exists k: nat :: i <= k && OccursAt(s, w, k)
    decreases |s| - i
  {
    if i + |w| <= |s| {
      MatchesAtIff(s, w, i, 0);
      assert w[0..] == w;
      ContainsFromIff(s, w, i + 1);
      assert MatchesAt(s, w, i, 0) <==> OccursAt(s, w, i);
      if ContainsFrom(s, w, i) && !MatchesAt(s, w, i, 0) {
        var k: nat :| i + 1 <= k && OccursAt(s, w, k);
      }
      if exists k: nat :: i <= k && OccursAt(s, w, k) {
        var k: nat :| i <= k && OccursAt(s, w, k);
        if k > i {
          assert i + 1 <= k && OccursAt(s, w, k);
          assert ContainsFrom(s, w, i + 1);
        }
      }
    } else {
      forall k: nat | i <= k
        ensures !OccursAt(s, w, k)
      {
      }
    }
  }

  /** The substring test agrees with the slicing definition. */
  lemma ContainsIffOccurs(s: string, w: string)
    ensures Contains(s, w) <==> exists k: nat :: OccursAt(s, w, k)
  {
    ContainsFromIff(s, w, 0);
  }

  lemma OccursInJoin(a: string, b: string, w: string, k: nat)
    requires OccursAt(a + " " + b, w, k)
    ensures OccursAt(a, w, k) || (k >= |a| + 1 && OccursAt(b, w, k - |a| - 1)) || ' ' in w
  {
    var s := a + " " + b;
    if k + |w| <= |a| {
      assert a[k..k + |w|] == s[k..k + |w|];
    } else if k > |a| {
      var j: nat := k - |a| - 1;
      assert s[|a| + 1..] == b;
      assert s[k..k + |w|] == s[|a| + 1..][j..j + |w|];
      assert OccursAt(b, w, j);
      assert j == k - |a| - 1;
    } else {
      assert s[k..k + |w|][|a| - k] == ' ';
    }
  }

  lemma OccursInLeft(a: string, b: string, w: string, k: nat)
    requires OccursAt(a, w, k)
    ensures OccursAt(a + " " + b, w, k)
  {
    assert (a + " " + b)[k..k + |w|] == a[k..k + |w|];
  }

  lemma OccursInRight(a: string, b: string, w: string, k: nat)
    requires OccursAt(b, w, k)
    ensures OccursAt(a + " " + b, w, k + |a| + 1)
  {
    assert (a + " " + b)[k + |a| + 1..k + |a| + 1 + |w|] == b[k..k + |w|];
  }

  /** A word without spaces occurs in two space-joined texts iff it occurs in one of them. */
  lemma ContainsJoin(a: string, b: string, w: string)
    requires ' ' !in w
    ensures Contains(a + " " + b, w) <==> Contains(a, w) || Contains(b, w)
  {
    var s := a + " " + b;
    ContainsIffOccurs(s, w);
    ContainsIffOccurs(a, w);
    ContainsIffOccurs(b, w);
    if Contains(s, w) {
      var k: nat :| OccursAt(s, w, k);
      OccursInJoin(a, b, w, k);
    }
    if Contains(a, w) {
      var k: nat :| OccursAt(a, w, k);
      OccursInLeft(a, b, w, k);
    }
    if Contains(b, w) {
      var k: nat :| OccursAt(b, w, k);
      OccursInRight(a, b, w, k);
    }
  }

  /** Words joined by single spaces, as a sentence is written. */
  function Sentence(words: seq<string>): string
  {
    if |words| == 0 then ""
    else if |words| == 1 then words[0]
    else Sentence(words[..|words| - 1]) + " " + words[|words| - 1]
  }

  function LowerAll(words: seq<string>): (r: seq<string>)
    ensures |r| == |words|
    ensures forall k :: 0 <= k < |words| ==> r[k] == Lower(words[k])
  {
    seq(|words|, k requires 0 <= k < |words| => Lower(words[k]))
  }

  /** Lower-casing a sentence lower-cases each word. */
  lemma {:induction false} LowerSentence(words: seq<string>)
    ensures Lower(Sentence(words)) == Sentence(LowerAll(words))
  {
    if |words| > 1 {
      var init := words[..|words| - 1];
      var last := words[|words| - 1];
      LowerSentence(init);
      LowerAppend(Sentence(init) + " ", last);
      LowerAppend(Sentence(init), " ");
      assert Lower(" ") == " ";
      assert LowerAll(words)[..|words| - 1] == LowerAll(init);
    }
  }

  /** A non-empty word without spaces occurs in a sentence iff it occurs in one of its words. */
  lemma {:induction false} ContainsSentence(words: seq<string>, w: string)
    requires ' ' !in w && |w| > 0
    ensures Contains(Sentence(words), w) <==> exists k :: 0 <= k < |words| && Contains(words[k], w)
  {
    if |words| > 1 {
      var init := words[..|words| - 1];
      ContainsSentence(init, w);
      ContainsJoin(Sentence(init), words[|words| - 1], w);
      assert forall k :: 0 <= k < |init| ==> init[k] == words[k];
    }
  }

  /** Some word of `words` at or after position `i` contains `w`. */
  predicate AnyContainsFrom(words: seq<string>, w: string, i: nat)
    decreases |words| - i
  {
    i < |words| && (Contains(words[i], w) || AnyContainsFrom(words, w, i + 1))
  }

  /** Some word of `words` contains `w`. */
  predicate AnyContains(words: seq<string>, w: string)
  {
    AnyContainsFrom(words, w, 0)
  }

  lemma {:induction false} AnyContainsFromIff(words: seq<string>, w: string, i: nat)
    ensures AnyContainsFrom(words, w, i) <==> exists k :: i <= k < |words| && Contains(words[k], w)
    decreases |words| - i
  {
    if i < |words| {
      AnyContainsFromIff(words, w, i + 1);
      if exists k :: i <= k < |words| && Contains(words[k], w) {
        var k :| i <= k < |words| && Contains(words[k], w);
        if k > i {
          assert i + 1 <= k < |words| && Contains(words[k], w);
        }
      }
    }
  }

  lemma AnyContainsIff(words: seq<string>, w: string)
    ensures AnyContains(words, w) <==> exists k :: 0 <= k < |words| && Contains(words[k], w)
  {
    AnyContainsFromIff(words, w, 0);
  }

  /** A word that holds `w` at position `k` makes the list mention `w`. */
  lemma MentionedAt(words: seq<string>, w: string, i: nat, k: nat)
    requires i < |words| && OccursAt(words[i], w, k)
    ensures AnyContains(words, w)
  {
    ContainsIffOccurs(words[i], w);
    AnyContainsIff(words, w);
  }
}
