/** Similarity of normalised property names: Dice over bigrams, token coverage, and the caps on both. */
module PropertyNames {

  function Bigrams(value: string): (pairs: seq<string>)
    ensures pairs == [] <==> value == ""
  {
    if |value| < 2 then if value == "" then [] else [value]
    else seq(|value| - 1, i requires 0 <= i < |value| - 1 => value[i..i + 2])
  }

  method CollectBigrams(value: string) returns (pairs: seq<string>)
    ensures pairs == Bigrams(value)
  {
    if |value| < 2 {
      return if value == "" then [] else [value];
    }
    pairs := [];
    for index := 0 to |value| - 1
      invariant pairs == Bigrams(value)[..index]
    {
      pairs := pairs + [value[index..index + 2]];
    }
  }

  /** Twice the size of the common multiset over the number of items. */
  function Overlap(a: seq<string>, b: seq<string>): real {
    if a == [] || b == [] then 0.0 else (2 * |multiset(a) * multiset(b)|) as real / (|a| + |b|) as real
  }

  function Dice(left: string, right: string): real {
    Overlap(Bigrams(left), Bigrams(right))
  }

  lemma CommonGrows(a: multiset<string>, seen: multiset<string>, item: string)
    ensures |a * (seen + multiset{item})| == |a * seen| + if a[item] > seen[item] then 1 else 0
  {
    if a[item] > seen[item] {
      assert a * (seen + multiset{item}) == a * seen + multiset{item};
    } else {
      assert a * (seen + multiset{item}) == a * seen;
    }
  }

  function CountOf(counts: map<string, nat>, item: string): nat {
    if item in counts then counts[item] else 0
  }

  method CountItems(items: seq<string>) returns (counts: map<string, nat>)
    ensures forall item :: CountOf(counts, item) == multiset(items)[item]
  {
    counts := map[];
    for i := 0 to |items|
      invariant forall item :: CountOf(counts, item) == multiset(items[..i])[item]
    {
      assert items[..i + 1] == items[..i] + [items[i]];
      counts := counts[items[i] := CountOf(counts, items[i]) + 1];
    }
    assert items[..|items|] == items;
  }

  /** How many of an item are left when those seen have been used up. */
  function Left(total: multiset<string>, seen: multiset<string>, item: string): nat {
    if total[item] > seen[item] then total[item] - seen[item] else 0
  }

  lemma OneUsedUp(total: multiset<string>, seen: multiset<string>, item: string, other: string)
    ensures Left(total, seen + multiset{item}, other) ==
            if other == item && Left(total, seen, item) > 0 then Left(total, seen, item) - 1
            else Left(total, seen, other)
  {
  }

  /** The counting loop: each item of `b` uses up one of `a`, if there is one left. */
  method CountCommon(a: seq<string>, b: seq<string>) returns (intersection: nat)
    ensures intersection == |multiset(a) * multiset(b)|
  {
    var counts := CountItems(a);
    ghost var total := multiset(a);
    ghost var seen: multiset<string> := multiset{};
    intersection := 0;
    for i := 0 to |b|
      invariant seen == multiset(b[..i])
      invariant forall item :: CountOf(counts, item) == Left(total, seen, item)
      invariant intersection == |total * seen|
    {
      var item := b[i];
      assert b[..i + 1] == b[..i] + [item];
      CommonGrows(total, seen, item);
      forall other ensures Left(total, seen + multiset{item}, other) ==
                           if other == item && Left(total, seen, item) > 0 then Left(total, seen, item) - 1
                           else Left(total, seen, other)
      {
        OneUsedUp(total, seen, item, other);
      }
      seen := seen + multiset{item};
      var count := CountOf(counts, item);
      if count > 0 {
        intersection := intersection + 1;
        counts := counts[item := count - 1];
      }
    }
    assert b[..|b|] == b;
  }

  /** The computed similarity is the ratio over the multisets. */
  method DiceSimilarity(left: string, right: string) returns (similarity: real)
    ensures similarity == Dice(left, right)
  {
    var a := CollectBigrams(left);
    var b := CollectBigrams(right);
    if a == [] || b == [] {
      return 0.0;
    }
    var intersection := CountCommon(a, b);
    similarity := (2 * intersection) as real / (|a| + |b|) as real;
  }

  lemma CommonIsBounded(a: multiset<string>, b: multiset<string>)
    ensures |a * b| <= |a| && |a * b| <= |b|
    ensures |a * b| == |a| && |a * b| == |b| <==> a == b
  {
    assert a == a * b + (a - b);
    assert b == a * b + (b - a);
    assert |a| == |a * b| + |a - b| && |b| == |a * b| + |b - a|;
    assert |a - b| == 0 ==> a - b == multiset{};
    assert |b - a| == 0 ==> b - a == multiset{};
    assert a == b ==> a * b == a;
  }

  lemma RatioIsOne(n: nat, d: nat)
    requires 0 < d && n <= d
    ensures 0.0 <= n as real / d as real <= 1.0
    ensures n as real / d as real == 1.0 <==> n == d
  {
    var r := n as real / d as real;
    assert r * d as real == n as real;
    assert r > 1.0 ==> r * d as real > d as real;
    assert r < 0.0 ==> r * d as real < 0.0;
  }

  lemma OverlapIsASimilarity(a: seq<string>, b: seq<string>)
    ensures Overlap(a, b) == Overlap(b, a)
    ensures 0.0 <= Overlap(a, b) <= 1.0
    ensures Overlap(a, b) == 1.0 <==> a != [] && b != [] && multiset(a) == multiset(b)
  {
    assert multiset(a) * multiset(b) == multiset(b) * multiset(a);
    CommonIsBounded(multiset(a), multiset(b));
    if a != [] && b != [] {
      RatioIsOne(2 * |multiset(a) * multiset(b)|, |a| + |b|);
    }
  }

  /** Symmetric, within [0, 1], and 1 exactly for two names with the same bigrams, each as often. */
  lemma DiceIsASimilarity(left: string, right: string)
    ensures Dice(left, right) == Dice(right, left)
    ensures 0.0 <= Dice(left, right) <= 1.0
    ensures Dice(left, right) == 1.0 <==>
            left != "" && right != "" && multiset(Bigrams(left)) == multiset(Bigrams(right))
  {
    OverlapIsASimilarity(Bigrams(left), Bigrams(right));
  }

  function TokensFrom(value: string, word: string): seq<string>
    decreases |value|
  {
    var done := if word == "" then [] else [word];
    if value == "" then done
    else if value[0] == ' ' then done + TokensFrom(value[1..], "")
    else TokensFrom(value[1..], word + [value[0]])
  }

  /** The words of a normalised name. */
  function Tokens(value: string): seq<string> {
    TokensFrom(value, "")
  }

  predicate IsNumber(token: string) {
    token != "" && forall i :: 0 <= i < |token| ==> '0' <= token[i] <= '9'
  }

  function Distinct(list: seq<string>): set<string> {
    set item | item in list
  }

  function Numbers(value: string): set<string> {
    set token | token in Tokens(value) && IsNumber(token)
  }

  function Smaller(a: nat, b: nat): nat {
    if a <= b then a else b
  }

  /** The share of the smaller word set that the larger one contains. */
  function Coverage(left: string, right: string): real {
    var a, b := Distinct(Tokens(left)), Distinct(Tokens(right));
    if a == {} || b == {} then 0.0 else |a * b| as real / Smaller(|a|, |b|) as real
  }

  method CountOverlap(smaller: set<string>, larger: set<string>) returns (overlap: nat)
    ensures overlap == |smaller * larger|
  {
    overlap := 0;
    var rest := smaller;
    ghost var seen: set<string> := {};
    while rest != {}
      invariant seen + rest == smaller && seen !! rest
      invariant overlap == |seen * larger|
      decreases |rest|
    {
      var token :| token in rest;
      assert (seen + {token}) * larger == if token in larger then seen * larger + {token} else seen * larger;
      rest, seen := rest - {token}, seen + {token};
      if token in larger {
        overlap := overlap + 1;
      }
    }
    assert seen == smaller;
  }

  method TokenCoverage(left: string, right: string) returns (coverage: real)
    ensures coverage == Coverage(left, right)
  {
    var a := Distinct(Tokens(left));
    var b := Distinct(Tokens(right));
    if a == {} || b == {} {
      return 0.0;
    }
    var smaller, larger := if |a| <= |b| then a else b, if |a| <= |b| then b else a;
    var overlap := CountOverlap(smaller, larger);
    assert smaller * larger == a * b;
    coverage := overlap as real / |smaller| as real;
  }

  lemma SubsetCount(a: set<string>, b: set<string>)
    requires a <= b
    ensures |a| <= |b| && (|a| == |b| <==> a == b)
  {
    assert b == a + (b - a);
    assert |b| == |a| + |b - a|;
  }

  /** Symmetric, within [0, 1], and 1 exactly when one non-empty word set contains the other. */
  lemma CoverageIsASimilarity(left: string, right: string)
    ensures Coverage(left, right) == Coverage(right, left)
    ensures 0.0 <= Coverage(left, right) <= 1.0
    ensures var a, b := Distinct(Tokens(left)), Distinct(Tokens(right));
            Coverage(left, right) == 1.0 <==> a != {} && b != {} && (a <= b || b <= a)
  {
    var a, b := Distinct(Tokens(left)), Distinct(Tokens(right));
    assert a * b == b * a;
    SubsetCount(a * b, a);
    SubsetCount(a * b, b);
    if a != {} && b != {} {
      RatioIsOne(|a * b|, Smaller(|a|, |b|));
      assert a * b == a <==> a <= b;
      assert a * b == b <==> b <= a;
    }
  }

  function AtMost(value: real, cap: real): real {
    if value <= cap then value else cap
  }

  function AtLeast(value: real, floor: real): real {
    if value >= floor then value else floor
  }

  /** One name covers the other and one of them is a single word. */
  predicate SingleWordCovered(left: string, right: string) {
    Coverage(left, right) >= 1.0 && Smaller(|Tokens(left)|, |Tokens(right)|) == 1
  }

  /** The caps on what coverage and bigrams suggest. */
  function Capped(coverage: real, dice: real, singleWord: bool, sameNumbers: bool, bothNumbered: bool): real {
    var similarity := AtLeast(dice, if coverage >= 1.0 then 0.94 else coverage * 0.9);
    var single := if singleWord then AtMost(similarity, 0.82) else similarity;
    var numbered := if sameNumbers then single else AtMost(single, if bothNumbered then 0.55 else 0.75);
    AtLeast(AtMost(numbered, 1.0), 0.0)
  }

  function NameSimilarity(left: string, right: string): real {
    if left == "" || right == "" then 0.0
    else if left == right then 1.0
    else
      Capped(Coverage(left, right), Dice(left, right), SingleWordCovered(left, right), Numbers(left) == Numbers(right),
             Numbers(left) != {} && Numbers(right) != {})
  }

  lemma NameSimilarityIsSymmetric(left: string, right: string)
    ensures NameSimilarity(left, right) == NameSimilarity(right, left)
  {
    DiceIsASimilarity(left, right);
    CoverageIsASimilarity(left, right);
  }

  /** Within [0, 1]; different numbers keep names apart. */
  lemma NameSimilarityIsBounded(left: string, right: string)
    ensures 0.0 <= NameSimilarity(left, right) <= 1.0
    ensures Numbers(left) != Numbers(right) ==> NameSimilarity(left, right) <= 0.75
  {
    DiceIsASimilarity(left, right);
    CoverageIsASimilarity(left, right);
  }

  /**
   * When the similarity is 1, which the matcher reports as an exact name: for equal names, and also for different
   * names with the same bigrams and the same numbers, unless a single word covers the other.
   */
  lemma ExactNameExactlyWhen(left: string, right: string)
    ensures NameSimilarity(left, right) == 1.0 <==>
            left != "" && right != "" &&
            (left == right || (multiset(Bigrams(left)) == multiset(Bigrams(right)) && Numbers(left) == Numbers(right) &&
                               !SingleWordCovered(left, right)))
  {
    DiceIsASimilarity(left, right);
    CoverageIsASimilarity(left, right);
  }

  lemma {:induction false} OneWord(value: string, word: string)
    requires word + value != "" && forall i :: 0 <= i < |value| ==> value[i] != ' '
    ensures TokensFrom(value, word) == [word + value]
    decreases |value|
  {
    if value == "" {
      assert word + value == word;
    } else {
      assert (word + [value[0]]) + value[1..] == word + value;
      OneWord(value[1..], word + [value[0]]);
    }
  }

  lemma NotANumber(value: string)
    requires value != "" && !IsNumber(value) && forall i :: 0 <= i < |value| ==> value[i] != ' '
    ensures Distinct(Tokens(value)) == {value} && Numbers(value) == {}
  {
    OneWord(value, "");
    assert "" + value == value;
  }

  /** Two different words with the same bigrams, not numbers, count as the exact name. */
  lemma SameBigramsCountAsExact(left: string, right: string)
    requires left != right && left != "" && right != ""
    requires forall i :: 0 <= i < |left| ==> left[i] != ' '
    requires forall i :: 0 <= i < |right| ==> right[i] != ' '
    requires !IsNumber(left) && !IsNumber(right)
    requires multiset(Bigrams(left)) == multiset(Bigrams(right))
    ensures NameSimilarity(left, right) == 1.0
  {
    NotANumber(left);
    NotANumber(right);
    assert !SingleWordCovered(left, right) by {
      CoverageIsASimilarity(left, right);
      assert left in {left} && left !in {right} && right !in {left};
    }
    ExactNameExactlyWhen(left, right);
  }

  /** Such words exist: any two letters make two of them. */
  lemma DifferentNamesCanBeExact(c: char, d: char) returns (left: string, right: string)
    requires 'a' <= c <= 'z' && 'a' <= d <= 'z' && c != d
    ensures left != right && NameSimilarity(left, right) == 1.0
  {
    left, right := [c, d, c, c], [c, c, d, c];
    assert left[1] != right[1];
    assert left[0..2] == [c, d] && left[1..3] == [d, c] && left[2..4] == [c, c];
    assert right[0..2] == [c, c] && right[1..3] == [c, d] && right[2..4] == [d, c];
    assert Bigrams(left) == [[c, d], [d, c], [c, c]] && Bigrams(right) == [[c, c], [c, d], [d, c]];
    assert left[0] == c && right[0] == c;
    SameBigramsCountAsExact(left, right);
  }

  /** A word is not empty and holds no space. */
  ghost predicate IsWord(word: string) {
    word != "" && forall i :: 0 <= i < |word| ==> word[i] != ' '
  }

  ghost predicate AreWords(words: seq<string>) {
    forall word :: word in words ==> IsWord(word)
  }

  /** The words with one space between any two, as a normalised name has them. */
  ghost function Spaced(words: seq<string>): string {
    if words == [] then "" else if |words| == 1 then words[0] else words[0] + " " + Spaced(words[1..])
  }

  lemma {:induction false} WordThenRest(value: string, word: string, rest: string)
    requires word + value != "" && forall i :: 0 <= i < |value| ==> value[i] != ' '
    ensures TokensFrom(value + " " + rest, word) == [word + value] + Tokens(rest)
    decreases |value|
  {
    var text := value + " " + rest;
    if value == "" {
      assert text[0] == ' ' && text[1..] == rest && word + value == word;
    } else {
      assert text[0] == value[0] && text[1..] == value[1..] + " " + rest;
      assert (word + [value[0]]) + value[1..] == word + value;
      WordThenRest(value[1..], word + [value[0]], rest);
    }
  }

  /** Splitting a name undoes joining its words. */
  lemma {:induction false} TokensUndoSpaced(words: seq<string>)
    requires AreWords(words)
    ensures Tokens(Spaced(words)) == words
  {
    if words == [] {
    } else {
      var (first, rest) := (words[0], words[1..]);
      assert words == [first] + rest && "" + first == first && IsWord(first);
      if rest == [] {
        OneWord(first, "");
      } else {
        TokensUndoSpaced(rest);
        WordThenRest(first, "", Spaced(rest));
      }
    }
  }

  ghost predicate Numbered(words: seq<string>) {
    exists word :: word in words && IsNumber(word)
  }

  ghost predicate SameNumbers(v: seq<string>, w: seq<string>) {
    forall word :: IsNumber(word) ==> (word in v <==> word in w)
  }

  lemma NumbersOfWords(v: seq<string>, w: seq<string>)
    requires AreWords(v) && AreWords(w)
    ensures Numbers(Spaced(v)) == Numbers(Spaced(w)) <==> SameNumbers(v, w)
    ensures Numbers(Spaced(v)) != {} <==> Numbered(v)
  {
    TokensUndoSpaced(v);
    TokensUndoSpaced(w);
    forall word ensures word in Numbers(Spaced(v)) <==> word in v && IsNumber(word) {
    }
    forall word ensures word in Numbers(Spaced(w)) <==> word in w && IsNumber(word) {
    }
    if Numbers(Spaced(v)) == Numbers(Spaced(w)) {
      forall word | IsNumber(word) ensures word in v <==> word in w {
        assert word in Numbers(Spaced(v)) <==> word in Numbers(Spaced(w));
      }
    }
    if Numbered(v) {
      var word :| word in v && IsNumber(word);
      assert word in Numbers(Spaced(v));
    }
  }

  /** Names apart in their numbers stay below the threshold for a review, whatever else they share. */
  lemma CapsOf(coverage: real, dice: real, singleWord: bool, sameNumbers: bool, bothNumbered: bool)
    requires 0.0 <= coverage <= 1.0 && 0.0 <= dice <= 1.0 && (singleWord ==> coverage == 1.0)
    ensures var similarity := Capped(coverage, dice, singleWord, sameNumbers, bothNumbered);
            && (sameNumbers && singleWord ==> similarity == 0.82)
            && (sameNumbers && !singleWord && coverage == 1.0 ==> similarity == if dice >= 0.94 then dice else 0.94)
            && (sameNumbers && coverage < 1.0 ==>
                  similarity >= dice && similarity >= 0.9 * coverage &&
                    (similarity == dice || similarity == 0.9 * coverage))
            && (!sameNumbers ==> similarity <= if bothNumbered then 0.55 else 0.75)
            && (!sameNumbers && coverage == 1.0 ==> similarity == if bothNumbered then 0.55 else 0.75)
  {
  }

  ghost predicate Within(v: seq<string>, w: seq<string>) {
    forall word :: word in v ==> word in w
  }

  lemma CoverageOfWords(v: seq<string>, w: seq<string>)
    requires AreWords(v) && AreWords(w) && v != [] && w != []
    ensures Coverage(Spaced(v), Spaced(w)) == 1.0 <==> Within(v, w) || Within(w, v)
    ensures SingleWordCovered(Spaced(v), Spaced(w)) <==> (Within(v, w) || Within(w, v)) && (|v| == 1 || |w| == 1)
  {
    TokensUndoSpaced(v);
    TokensUndoSpaced(w);
    CoverageIsASimilarity(Spaced(v), Spaced(w));
    assert v[0] in Distinct(v) && w[0] in Distinct(w);
    assert Distinct(v) <= Distinct(w) <==> Within(v, w) by {
      if Distinct(v) <= Distinct(w) {
        forall word | word in v ensures word in w {
          assert word in Distinct(v);
        }
      }
    }
    assert Distinct(w) <= Distinct(v) <==> Within(w, v) by {
      if Distinct(w) <= Distinct(v) {
        forall word | word in w ensures word in v {
          assert word in Distinct(w);
        }
      }
    }
  }

  /**
   * The similarity of two different names, by their words. If the words of one are among those of the other it is at
   * least 0.94, unless one is a single word, when it is 0.82, or the numbers differ, when it is 0.55 or 0.75. Different
   * numbers are never better than that, and otherwise it is the better of the bigrams and nine tenths of the coverage.
   */
  lemma SimilarityOfWords(v: seq<string>, w: seq<string>)
    requires AreWords(v) && AreWords(w) && v != [] && w != [] && Spaced(v) != Spaced(w)
    ensures var (left, right) := (Spaced(v), Spaced(w));
            var similarity := NameSimilarity(left, right);
            var apart := if Numbered(v) && Numbered(w) then 0.55 else 0.75;
            if Within(v, w) || Within(w, v) then
              similarity == if !SameNumbers(v, w) then apart
                            else if |v| == 1 || |w| == 1 then 0.82
                            else if Dice(left, right) >= 0.94 then Dice(left, right) else 0.94
            else if !SameNumbers(v, w) then similarity <= apart
            else
              && similarity >= Dice(left, right) && similarity >= 0.9 * Coverage(left, right)
              && (similarity == Dice(left, right) || similarity == 0.9 * Coverage(left, right))
  {
    var (left, right) := (Spaced(v), Spaced(w));
    assert left != "" && right != "" by {
      TokensUndoSpaced(v);
      TokensUndoSpaced(w);
    }
    CoverageOfWords(v, w);
    NumbersOfWords(v, w);
    NumbersOfWords(w, v);
    DiceIsASimilarity(left, right);
    CoverageIsASimilarity(left, right);
    CapsOf(Coverage(left, right), Dice(left, right), SingleWordCovered(left, right), Numbers(left) == Numbers(right),
           Numbers(left) != {} && Numbers(right) != {});
  }

  /** Two names that end in different numbers score at most 0.55, however much else they share. */
  lemma UnitsStayApart(words: seq<string>, a: string, b: string)
    requires AreWords(words) && a !in words && a != b && a != "" && b != ""
    requires forall i :: 0 <= i < |a| ==> '0' <= a[i] <= '9'
    requires forall i :: 0 <= i < |b| ==> '0' <= b[i] <= '9'
    ensures NameSimilarity(Spaced(words + [a]), Spaced(words + [b])) <= 0.55
  {
    var v, w := words + [a], words + [b];
    assert a in v && a !in w && b in w;
    assert IsNumber(a) && IsNumber(b);
    assert Spaced(v) != Spaced(w) by {
      TokensUndoSpaced(v);
      TokensUndoSpaced(w);
    }
    SimilarityOfWords(v, w);
  }
}
