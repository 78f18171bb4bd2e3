/** The keyword classifier: scores every category by the number of its
    keywords found in the lower-cased text, keeps the first category with the
    strictly highest score, and falls back to General_Inquiry when nothing
    matches. Confidence is kept in whole hundredths. */
module Classifier {
  import opened Text
  import opened Registry

  /** What `classify` returns; `confidence` is in hundredths (95 stands for 0.95). */
  datatype Classification = Classification(
    category: Category,
    confidence: nat,
    priority: Priority,
    color: string,
    response: string)

  /** Number of keywords that occur in `low` (the `reduce` over a keyword list). */
  function Hits(keywords: seq<string>, low: string): (n: nat)
    ensures n <= |keywords|
    ensures n == 0 <==> forall i :: 0 <= i < |keywords| ==> !Contains(low, keywords[i])
    ensures n == |keywords| <==> forall i :: 0 <= i < |keywords| ==> Contains(low, keywords[i])
  {
    if keywords == [] then 0
    else (if Contains(low, keywords[0]) then 1 else 0) + Hits(keywords[1..], low)
  }

  /** The score of a category on lower-cased text. The fallback is skipped
      by the scan, so its score is 0 whatever its row holds. */
  function Score(table: Table, c: Category, low: string): (s: nat)
    ensures s <= |table.Lookup(c).keywords|
    ensures c == FALLBACK ==> s == 0
    ensures c != FALLBACK ==>
      (s == 0 <==> forall i :: 0 <= i < |table.Lookup(c).keywords| ==> !Contains(low, table.Lookup(c).keywords[i]))
  {
    if c == FALLBACK then 0 else Hits(table.Lookup(c).keywords, low)
  }

  /** The highest score among `cs`, or 0 when `cs` is empty. */
  function MaxScore(table: Table, cs: seq<Category>, low: string): (m: nat)
    ensures forall i :: 0 <= i < |cs| ==> Score(table, cs[i], low) <= m
    ensures m == 0 || exists i :: 0 <= i < |cs| && Score(table, cs[i], low) == m
  {
    if cs == [] then 0
    else
      var rest := MaxScore(table, cs[1..], low);
      var s := Score(table, cs[0], low);
      if s >= rest then s else rest
  }

  /** Position of the first category in `cs` whose score is `m`. */
  function FirstWith(table: Table, cs: seq<Category>, low: string, m: nat): (k: nat)
    requires exists i :: 0 <= i < |cs| && Score(table, cs[i], low) == m
    ensures k < |cs| && Score(table, cs[k], low) == m
    ensures forall j :: 0 <= j < k ==> Score(table, cs[j], low) != m
  {
    if Score(table, cs[0], low) == m then 0
    else
      assert exists i :: 0 <= i < |cs[1..]| && Score(table, cs[1..][i], low) == m by {
        var i :| 0 <= i < |cs| && Score(table, cs[i], low) == m;
        assert cs[1..][i - 1] == cs[i];
      }
      1 + FirstWith(table, cs[1..], low, m)
  }

  /** Confidence in hundredths: 30 without a match, otherwise
      min(80 + 5 * score, 98). */
  function Confidence(score: nat): (c: nat)
    ensures 30 <= c <= 98
    ensures score > 0 ==> 85 <= c
  {
    if score > 0 then (if 80 + 5 * score < 98 then 80 + 5 * score else 98) else 30
  }

  /** The category `classify` picks on lower-cased text: among the categories
      with the highest score the first one in declaration order, or the
      fallback when that score is 0. */
  function Winner(table: Table, low: string): Category
  {
    var m := MaxScore(table, CATEGORIES, low);
    if m == 0 then FALLBACK else CATEGORIES[FirstWith(table, CATEGORIES, low, m)]
  }

  /** The result `classify(text)` produces: the confidence is that of the
      winner's own score, priority and colour come from the winner's row, and
      the response is the winner's template, whatever text it is given. */
  function ClassificationOf(table: Table, text: string): (r: Classification)
    ensures r.confidence == Confidence(Score(table, r.category, Lower(text)))
    ensures r.priority == table.Lookup(r.category).priority
    ensures r.color == table.Lookup(r.category).color
    ensures forall other :: r.response == Template(table.Lookup(r.category), other)
  {
    var low := Lower(text);
    var c := Winner(table, low);
    var config := table.Lookup(c);
    Classification(c, Confidence(MaxScore(table, CATEGORIES, low)), config.priority, config.color, Template(config, text))
  }

  /** The selection rule stated on its own: either nothing scores and the
      fallback is chosen, or `c` scores above 0, no category scores more, and
      every category declared before `c` scores strictly less. */
  predicate IsFirstBest(table: Table, low: string, c: Category)
  {
    if forall i :: 0 <= i < |CATEGORIES| ==> Score(table, CATEGORIES[i], low) == 0 then
      c == FALLBACK
    else
      && Score(table, c, low) > 0
      && (forall i :: 0 <= i < |CATEGORIES| ==> Score(table, CATEGORIES[i], low) <= Score(table, c, low))
      && (forall j :: 0 <= j < Index(c) ==> Score(table, CATEGORIES[j], low) < Score(table, c, low))
  }

  /** `classify` as written: a loop over the categories in declaration order
      that skips the fallback, replaces the best category only on a strictly
      higher score, and copies the table entry of the winner. */
  method Classify(table: Table, text: string) returns (r: Classification)
    ensures r == ClassificationOf(table, text)
    ensures IsFirstBest(table, Lower(text), r.category)
  {
    var low := Lower(text);
    var maxScore: nat := 0;
    var best := FALLBACK;
    ghost var at: nat := 0;
    for i := 0 to |CATEGORIES|
      invariant forall j :: 0 <= j < i ==> Score(table, CATEGORIES[j], low) <= maxScore
      invariant maxScore == 0 ==> best == FALLBACK
      invariant maxScore > 0 ==> at < i && CATEGORIES[at] == best && Score(table, best, low) == maxScore
      invariant maxScore > 0 ==> forall j :: 0 <= j < at ==> Score(table, CATEGORIES[j], low) < maxScore
    {
      var category := CATEGORIES[i];
      if category == FALLBACK {
        continue;
      }
      var score := Hits(table.Lookup(category).keywords, low);
      if score > maxScore {
        maxScore := score;
        best := category;
        at := i;
      }
    }
    var config := table.Lookup(best);
    var confidence := if maxScore > 0 then (if 80 + 5 * maxScore < 98 then 80 + 5 * maxScore else 98) else 30;
    r := Classification(best, confidence, config.priority, config.color, Template(config, text));
    SelectionUnique(table, text, best);
  }

  /** `IsFirstBest` holds of the category `classify` picks, and of no other:
      the scan's answer is the first category with the strictly highest
      positive score. */
  lemma SelectionUnique(table: Table, text: string, c: Category)
    ensures IsFirstBest(table, Lower(text), c) <==> c == ClassificationOf(table, text).category
  {
    var low := Lower(text);
    var m := MaxScore(table, CATEGORIES, low);
    var w := Winner(table, low);
    if m == 0 {
      assert forall i :: 0 <= i < |CATEGORIES| ==> Score(table, CATEGORIES[i], low) == 0;
    } else {
      var k := FirstWith(table, CATEGORIES, low, m);
      assert Index(w) == k;
      assert !(forall i :: 0 <= i < |CATEGORIES| ==> Score(table, CATEGORIES[i], low) == 0) by {
        assert Score(table, CATEGORIES[k], low) == m;
      }
      assert IsFirstBest(table, low, w);
      if IsFirstBest(table, low, c) {
        assert Score(table, c, low) == m by {
          assert Score(table, CATEGORIES[Index(c)], low) <= m;
          assert Score(table, CATEGORIES[k], low) <= Score(table, c, low);
        }
        assert !(Index(c) < k);
        assert !(k < Index(c));
      }
    }
  }

  /** No keyword of any category occurs: the fallback, with confidence 0.30
      and priority Low. */
  lemma FallbackResult(table: Table, text: string)
    requires forall i :: 0 <= i < |CATEGORIES| ==> Score(table, CATEGORIES[i], Lower(text)) == 0
    ensures ClassificationOf(table, text).category == FALLBACK
    ensures ClassificationOf(table, text).confidence == 30
    ensures ClassificationOf(table, text).priority == table.generalInquiry.priority
  {
  }

  /** Some keyword occurs: a non-fallback category, with confidence
      min(80 + 5 * score, 98) hundredths of its score. */
  lemma MatchResult(table: Table, text: string)
    requires exists i :: 0 <= i < |CATEGORIES| && Score(table, CATEGORIES[i], Lower(text)) > 0
    ensures ClassificationOf(table, text).category != FALLBACK
    ensures var s := Score(table, ClassificationOf(table, text).category, Lower(text));
      s > 0 && ClassificationOf(table, text).confidence == (if 80 + 5 * s < 98 then 80 + 5 * s else 98)
  {
    var low := Lower(text);
    var m := MaxScore(table, CATEGORIES, low);
    var i :| 0 <= i < |CATEGORIES| && Score(table, CATEGORIES[i], low) > 0;
    assert m > 0;
  }

  /** Confidence never decreases as the winning score grows. */
  lemma ConfidenceMonotone(a: nat, b: nat)
    requires a <= b
    ensures Confidence(a) <= Confidence(b)
  {
  }

  /** Classification ignores letter case. */
  lemma CaseInsensitive(table: Table, text: string)
    ensures ClassificationOf(table, Lower(text)) == ClassificationOf(table, text)
  {
    LowerIdempotent(text);
  }

  /** A keyword found in some text is still found in any longer text around it,
      so no category loses score. */
  lemma {:induction false} HitsGrow(keywords: seq<string>, pre: string, low: string, post: string)
    ensures Hits(keywords, low) <= Hits(keywords, pre + low + post)
  {
    if keywords != [] {
      if Contains(low, keywords[0]) {
        ContainsExtend(pre, low, post, keywords[0]);
      }
      HitsGrow(keywords[1..], pre, low, post);
    }
  }

  lemma {:induction false} MaxScoreGrows(table: Table, cs: seq<Category>, pre: string, low: string, post: string)
    ensures MaxScore(table, cs, low) <= MaxScore(table, cs, pre + low + post)
  {
    var m := MaxScore(table, cs, low);
    if m > 0 {
      var i :| 0 <= i < |cs| && Score(table, cs[i], low) == m;
      if cs[i] != FALLBACK {
        HitsGrow(table.Lookup(cs[i]).keywords, pre, low, post);
      }
    }
  }

  /** Adding text around a request never lowers the confidence of its
      classification. */
  lemma ConfidenceGrows(table: Table, pre: string, text: string, post: string)
    ensures ClassificationOf(table, text).confidence <= ClassificationOf(table, pre + text + post).confidence
  {
    LowerAppend(pre, text);
    LowerAppend(pre + text, post);
    MaxScoreGrows(table, CATEGORIES, Lower(pre), Lower(text), Lower(post));
    ConfidenceMonotone(MaxScore(table, CATEGORIES, Lower(text)), MaxScore(table, CATEGORIES, Lower(pre + text + post)));
  }

  /** Every keyword of the table holds at least one of the letters
      b, c, g, h, i, l, m, n, r, t, u, v, y; text without them matches none. */
  predicate LacksKeywordLetters(low: string)
  {
    forall i :: 0 <= i < |low| ==> !IsKeywordLetter(low[i])
  }

  predicate IsKeywordLetter(ch: char)
  {
    ch == 'b' || ch == 'c' || ch == 'g' || ch == 'h' || ch == 'i' || ch == 'l' || ch == 'm'
    || ch == 'n' || ch == 'r' || ch == 't' || ch == 'u' || ch == 'v' || ch == 'y'
  }

  /** With the table the classifier is built with, text whose lower-cased form
      lacks all those letters is a general inquiry with confidence 0.30 and
      priority Low. */
  lemma LetterlessTextFallsBack(text: string)
    requires LacksKeywordLetters(Lower(text))
    ensures ClassificationOf(TABLE, text).category == General_Inquiry
    ensures ClassificationOf(TABLE, text).confidence == 30
    ensures ClassificationOf(TABLE, text).priority == Low
  {
    var low := Lower(text);
    NoAuthenticationKeyword(low);
    NoHrKeyword(low);
    NoItKeyword(low);
    NoSystemKeyword(low);
    FallbackResult(TABLE, text);
  }

  /** The example "asdkjf qpwoe" falls back to a general inquiry. The text is
      a parameter pinned by `requires` rather than a literal in the ensures:
      with the literal written into the goal, the verifier tries to evaluate
      every keyword search on it directly and runs out of resources. */
  lemma UnrelatedTextFallsBack(text: string)
    requires text == "asdkjf qpwoe"
    ensures ClassificationOf(TABLE, text).category == General_Inquiry
    ensures ClassificationOf(TABLE, text).confidence == 30
    ensures ClassificationOf(TABLE, text).priority == Low
  {
    LowerOfLowercase(text);
    assert LacksKeywordLetters(text);
    LetterlessTextFallsBack(text);
  }

  lemma NoAuthenticationKeyword(low: string)
    requires LacksKeywordLetters(low)
    ensures Hits(TABLE.authentication.keywords, low) == 0
  {
    var kws := TABLE.authentication.keywords;
    forall i | 0 <= i < |kws| ensures !Contains(low, kws[i]) {
      if i == 0 { ContainsNeedsChars(low, kws[i], 6); }
      else if i == 1 { ContainsNeedsChars(low, kws[i], 0); }
      else if i == 2 { ContainsNeedsChars(low, kws[i], 1); }
      else if i == 3 { ContainsNeedsChars(low, kws[i], 0); }
      else if i == 4 { ContainsNeedsChars(low, kws[i], 2); }
      else if i == 5 { ContainsNeedsChars(low, kws[i], 0); }
      else if i == 6 { ContainsNeedsChars(low, kws[i], 0); }
      else { ContainsNeedsChars(low, kws[i], 1); }
    }
  }

  lemma NoHrKeyword(low: string)
    requires LacksKeywordLetters(low)
    ensures Hits(TABLE.hrServices.keywords, low) == 0
  {
    var kws := TABLE.hrServices.keywords;
    forall i | 0 <= i < |kws| ensures !Contains(low, kws[i]) {
      if i == 0 { ContainsNeedsChars(low, kws[i], 0); }
      else if i == 1 { ContainsNeedsChars(low, kws[i], 0); }
      else if i == 2 { ContainsNeedsChars(low, kws[i], 0); }
      else if i == 3 { ContainsNeedsChars(low, kws[i], 1); }
      else if i == 4 { ContainsNeedsChars(low, kws[i], 2); }
      else if i == 5 { ContainsNeedsChars(low, kws[i], 0); }
      else if i == 6 { ContainsNeedsChars(low, kws[i], 2); }
      else { ContainsNeedsChars(low, kws[i], 0); }
    }
  }

  lemma NoItKeyword(low: string)
    requires LacksKeywordLetters(low)
    ensures Hits(TABLE.itSupport.keywords, low) == 0
  {
    var kws := TABLE.itSupport.keywords;
    forall i | 0 <= i < |kws| ensures !Contains(low, kws[i]) {
      if i == 0 { ContainsNeedsChars(low, kws[i], 0); }
      else if i == 1 { ContainsNeedsChars(low, kws[i], 3); }
      else if i == 2 { ContainsNeedsChars(low, kws[i], 0); }
      else if i == 3 { ContainsNeedsChars(low, kws[i], 1); }
      else if i == 4 { ContainsNeedsChars(low, kws[i], 0); }
      else if i == 5 { ContainsNeedsChars(low, kws[i], 0); }
      else { ContainsNeedsChars(low, kws[i], 1); }
    }
  }

  lemma NoSystemKeyword(low: string)
    requires LacksKeywordLetters(low)
    ensures Hits(TABLE.systemIssues.keywords, low) == 0
  {
    var kws := TABLE.systemIssues.keywords;
    forall i | 0 <= i < |kws| ensures !Contains(low, kws[i]) {
      if i == 0 { ContainsNeedsChars(low, kws[i], 1); }
      else if i == 1 { ContainsNeedsChars(low, kws[i], 0); }
      else if i == 2 { ContainsNeedsChars(low, kws[i], 0); }
      else if i == 3 { ContainsNeedsChars(low, kws[i], 1); }
      else if i == 4 { ContainsNeedsChars(low, kws[i], 3); }
      else if i == 5 { ContainsNeedsChars(low, kws[i], 3); }
      else { ContainsNeedsChars(low, kws[i], 0); }
    }
  }
}
