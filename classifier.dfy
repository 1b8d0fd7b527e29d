/**
 * The category classifier of the conversation controller (`detectCategory` in CopilotPanel):
 * a query is filed under tech, finance or energy by keyword, or under general.
 */
module Classifier {
  import opened Strings
  import opened Entities

  const TechKeywords: seq<string> :=
    ["aapl", "apple", "msft", "microsoft", "googl", "google", "amzn", "amazon",
     "meta", "fb", "tesla", "tsla", "nvda", "nvidia"]
  const FinanceKeywords: seq<string> := ["bank", "finance", "jpm", "goldman", "wells fargo"]
  const EnergyKeywords: seq<string> := ["energy", "oil", "gas", "chevron", "exxon"]

  /** A regular expression `k1|k2|...` matches somewhere in `text`. */
  predicate MentionsAny(text: string, keywords: seq<string>) {
    exists k :: k in keywords && Contains(text, k)
  }

  /**
   * `detectCategory`: the lower-cased query is matched against the tech, finance and energy
   * keyword groups in that order; the first group that matches wins, and no match is `General`.
   */
  function DetectCategory(query: string): (c: Category)
    ensures c == Tech <==> MentionsAny(ToLower(query), TechKeywords)
    ensures c == Finance <==> !MentionsAny(ToLower(query), TechKeywords) && MentionsAny(ToLower(query), FinanceKeywords)
    ensures c == Energy <==> !MentionsAny(ToLower(query), TechKeywords) && !MentionsAny(ToLower(query), FinanceKeywords)
                             && MentionsAny(ToLower(query), EnergyKeywords)
  {
    var lower := ToLower(query);
    if MentionsAny(lower, TechKeywords) then Tech
    else if MentionsAny(lower, FinanceKeywords) then Finance
    else if MentionsAny(lower, EnergyKeywords) then Energy
    else General
  }

  /** Lower-casing forgets the case of the letters: an upper-cased string lowers to the same text. */
  lemma {:induction false} LowerOfUpper(s: string)
    ensures ToLower(ToUpper(s)) == ToLower(s)
  {
    forall i | 0 <= i < |s|
      ensures ToLower(ToUpper(s))[i] == ToLower(s)[i]
    {
      var c := s[i];
      if IsLowerAscii(c) {
        assert UpperChar(c) == (c as int - 32) as char;
      }
    }
  }

  /** The classifier ignores case: a query and its upper-cased form fall in the same category. */
  lemma DetectCategoryIgnoresCase(query: string)
    ensures DetectCategory(ToUpper(query)) == DetectCategory(query)
  {
    LowerOfUpper(query);
  }

  /** Occurrences survive extension on either side. */
  lemma {:induction false} ContainsInContext(pre: string, mid: string, post: string, pat: string)
    requires Contains(mid, pat)
    ensures Contains(pre + mid + post, pat)
  {
    var j := IndexOf(mid, pat).value;
    var s := pre + mid + post;
    assert s[|pre| + j..|pre| + j + |pat|] == mid[j..j + |pat|];
    assert OccursAt(s, pat, |pre| + j);
  }

  /** A tech keyword anywhere decides the category, whatever else the query mentions. */
  lemma TechWins(pre: string, keyword: string, post: string)
    requires keyword in TechKeywords
    ensures DetectCategory(pre + keyword + post) == Tech
  {
    var lower := ToLower(pre + keyword + post);
    assert forall k :: k in TechKeywords ==> ToLower(k) == k;
    assert lower == ToLower(pre) + keyword + ToLower(post);
    assert OccursAt(keyword, keyword, 0);
    ContainsInContext(ToLower(pre), keyword, ToLower(post), keyword);
    assert MentionsAny(lower, TechKeywords);
  }

  /** A keyword with a letter that the text does not use cannot occur in it. */
  lemma MissingLetter(s: string, k: string, i: nat)
    requires i < |k| && k[i] !in s
    ensures !Contains(s, k)
  {
    forall j | 0 <= j && j + |k| <= |s|
      ensures !OccursAt(s, k, j)
    {
      assert s[j + i] in s;
      assert s[j..j + |k|][i] != k[i];
    }
  }

  /**
   * A lower-cased query without the letters a, b, d, f, g, j, m, s, w mentions no tech or finance
   * keyword, so a query that names an energy keyword is an energy query.
   */
  lemma EnergyWithoutLetters(query: string, keyword: string)
    requires var s := ToLower(query);
             'a' !in s && 'b' !in s && 'd' !in s && 'f' !in s && 'g' !in s
             && 'j' !in s && 'm' !in s && 's' !in s && 'w' !in s
    requires keyword in EnergyKeywords && Contains(ToLower(query), keyword)
    ensures DetectCategory(query) == Energy
  {
    var s := ToLower(query);
    MissingLetter(s, "aapl", 0); MissingLetter(s, "apple", 0); MissingLetter(s, "msft", 0);
    MissingLetter(s, "microsoft", 0); MissingLetter(s, "googl", 0); MissingLetter(s, "google", 0);
    MissingLetter(s, "amzn", 0); MissingLetter(s, "amazon", 0); MissingLetter(s, "meta", 0);
    MissingLetter(s, "fb", 0); MissingLetter(s, "tesla", 2); MissingLetter(s, "tsla", 1);
    MissingLetter(s, "nvda", 2); MissingLetter(s, "nvidia", 3);
    MissingLetter(s, "bank", 0); MissingLetter(s, "finance", 0); MissingLetter(s, "jpm", 0);
    MissingLetter(s, "goldman", 0); MissingLetter(s, "wells fargo", 0);
  }

  /**
   * A lower-cased query without the letters b, c, f, g, i, j, l, m, n, p, s, x mentions no keyword
   * of any group, so it is a general query.
   */
  lemma GeneralWithoutLetters(query: string)
    requires var s := ToLower(query);
             'b' !in s && 'c' !in s && 'f' !in s && 'g' !in s && 'i' !in s && 'j' !in s
             && 'l' !in s && 'm' !in s && 'n' !in s && 'p' !in s && 's' !in s && 'x' !in s
    ensures DetectCategory(query) == General
  {
    var s := ToLower(query);
    MissingLetter(s, "aapl", 2); MissingLetter(s, "apple", 1); MissingLetter(s, "msft", 0);
    MissingLetter(s, "microsoft", 0); MissingLetter(s, "googl", 0); MissingLetter(s, "google", 0);
    MissingLetter(s, "amzn", 1); MissingLetter(s, "amazon", 1); MissingLetter(s, "meta", 0);
    MissingLetter(s, "fb", 0); MissingLetter(s, "tesla", 2); MissingLetter(s, "tsla", 1);
    MissingLetter(s, "nvda", 0); MissingLetter(s, "nvidia", 0);
    MissingLetter(s, "bank", 0); MissingLetter(s, "finance", 0); MissingLetter(s, "jpm", 0);
    MissingLetter(s, "goldman", 0); MissingLetter(s, "wells fargo", 2);
    MissingLetter(s, "energy", 1); MissingLetter(s, "oil", 1); MissingLetter(s, "gas", 0);
    MissingLetter(s, "chevron", 0); MissingLetter(s, "exxon", 1);
  }

  /** "thoughts on nvidia earnings?" is a tech query. */
  lemma TechExample(query: string)
    requires query == "thoughts on nvidia earnings?"
    ensures DetectCategory(query) == Tech
  {
    assert query == "thoughts on " + "nvidia" + " earnings?";
    TechWins("thoughts on ", "nvidia", " earnings?");
  }

  /** "What's AAPL doing?" is a tech query: the ticker matches once the query is lower-cased. */
  lemma AaplExample(query: string)
    requires query == "What's AAPL doing?"
    ensures DetectCategory(query) == Tech
  {
    var lower := ToLower(query);
    assert lower == "what's aapl doing?";
    assert OccursAt(lower, "aapl", 7);
    assert Contains(lower, "aapl");
    assert MentionsAny(lower, TechKeywords);
  }

  lemma ChevronLacksA(s: string)
    requires s == "chevron outlook?"
    ensures 'a' !in s && 'b' !in s && 'd' !in s
  {
  }

  lemma ChevronLacksB(s: string)
    requires s == "chevron outlook?"
    ensures 'f' !in s && 'g' !in s && 'j' !in s
  {
  }

  lemma ChevronLacksC(s: string)
    requires s == "chevron outlook?"
    ensures 'm' !in s && 's' !in s && 'w' !in s
  {
  }

  lemma WeatherLacksA(s: string)
    requires s == "weather today"
    ensures 'b' !in s && 'c' !in s && 'f' !in s && 'g' !in s
  {
  }

  lemma WeatherLacksB(s: string)
    requires s == "weather today"
    ensures 'i' !in s && 'j' !in s && 'l' !in s && 'm' !in s
  {
  }

  lemma WeatherLacksC(s: string)
    requires s == "weather today"
    ensures 'n' !in s && 'p' !in s && 's' !in s && 'x' !in s
  {
  }

  /** "Chevron outlook?" is an energy query. */
  lemma EnergyExample(query: string)
    requires query == "Chevron outlook?"
    ensures DetectCategory(query) == Energy
  {
    var lower := ToLower(query);
    assert lower == "chevron outlook?";
    ChevronLacksA(lower);
    ChevronLacksB(lower);
    ChevronLacksC(lower);
    assert OccursAt(lower, "chevron", 0);
    EnergyWithoutLetters(query, "chevron");
  }

  /** "weather today" mentions no keyword of any group and is a general query. */
  lemma GeneralExample(query: string)
    requires query == "weather today"
    ensures DetectCategory(query) == General
  {
    var lower := ToLower(query);
    assert lower == "weather today";
    WeatherLacksA(lower);
    WeatherLacksB(lower);
    WeatherLacksC(lower);
    GeneralWithoutLetters(query);
  }
}
