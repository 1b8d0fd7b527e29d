/**
 * The personalized-insights card: interests are gathered from the watchlist and the recent query
 * history, the language model proposes insights about them, insights already shown to the user
 * are filtered out and logged, and the user can dismiss insights one by one.
 */
module Insights {
  import opened Wrappers
  import opened Seqs
  import opened Entities
  import opened Base44

  /** How many of the most recent queries feed interest detection. */
  const RecentCount: nat := 10
  /** How many insights the shown-insights log keeps. */
  const ShownCap: nat := 50
  /** How many interests a request names at most. */
  const InterestCap: nat := 5

  // ---------------------------------------------------------------- interests

  /** The interest a query category stands for; a general query stands for none. */
  function Label(c: Category): (r: Option<string>)
    ensures r.None? <==> c == General
  {
    match c
    case Tech => Some("technology stocks")
    case Finance => Some("financial sector")
    case Energy => Some("energy sector")
    case General => None
  }

  /** The watchlist's symbols, in watchlist order. */
  function Symbols(stocks: seq<Stock>): (r: seq<string>)
    ensures |r| == |stocks|
    ensures forall i :: 0 <= i < |r| ==> r[i] == stocks[i].symbol
  {
    seq(|stocks|, i requires 0 <= i < |stocks| => stocks[i].symbol)
  }

  /** The labels of the queries, in query order, general queries contributing nothing. */
  function Labels(queries: seq<HistoryEntry>): seq<string>
    decreases |queries|
  {
    if queries == [] then []
    else
      var last := Label(queries[|queries| - 1].category);
      Labels(queries[..|queries| - 1]) + (if last.Some? then [last.value] else [])
  }

  /**
   * `detectInterests`: the symbols, then the labels, gathered into an insertion-ordered set and
   * cut to the first five.
   */
  function Interests(queries: seq<HistoryEntry>, stocks: seq<Stock>): (r: seq<string>)
    ensures |r| <= InterestCap
  {
    Take(Dedup(Symbols(stocks) + Labels(queries)), InterestCap)
  }

  /** Deduplicating one more element adds it at the end exactly when it is new. */
  lemma DedupSnoc<T>(s: seq<T>, x: T)
    ensures Dedup(s + [x]) == if x in s then Dedup(s) else Dedup(s) + [x]
  {
    assert (s + [x])[..|s + [x]| - 1] == s;
    DedupFacts(s);
  }

  /**
   * `detectInterests` as the component runs it: a set filled by one loop over the watchlist and
   * one over the queries, then its first five elements in insertion order.
   */
  method DetectInterests(queries: seq<HistoryEntry>, stocks: seq<Stock>) returns (interests: seq<string>)
    ensures interests == Interests(queries, stocks)
  {
    var found: seq<string> := [];
    ghost var added: seq<string> := [];
    for i := 0 to |stocks|
      invariant added == Symbols(stocks[..i])
      invariant found == Dedup(added)
    {
      var symbol := stocks[i].symbol;
      DedupFacts(added);
      DedupSnoc(added, symbol);
      if symbol !in found {
        found := found + [symbol];
      }
      added := added + [symbol];
      assert Symbols(stocks[..i + 1]) == Symbols(stocks[..i]) + [symbol];
    }
    assert stocks[..|stocks|] == stocks;
    for j := 0 to |queries|
      invariant added == Symbols(stocks) + Labels(queries[..j])
      invariant found == Dedup(added)
    {
      var c := queries[j].category;
      assert queries[..j + 1][..j] == queries[..j];
      if c == Tech || c == Finance || c == Energy {
        var interest := Label(c).value;
        DedupFacts(added);
        DedupSnoc(added, interest);
        if interest !in found {
          found := found + [interest];
        }
        added := added + [interest];
      }
    }
    assert queries[..|queries|] == queries;
    interests := Take(found, InterestCap);
  }

  /** A label occurs among the labels exactly when some query of its category was made. */
  lemma {:induction false} LabelsMembership(queries: seq<HistoryEntry>, x: string)
    ensures x in Labels(queries) <==> exists i :: 0 <= i < |queries| && Label(queries[i].category) == Some(x)
    decreases |queries|
  {
    if queries != [] {
      var init := queries[..|queries| - 1];
      LabelsMembership(init, x);
      if x in Labels(init) {
        var i :| 0 <= i < |init| && Label(init[i].category) == Some(x);
        assert queries[i] == init[i];
      }
      if exists i :: 0 <= i < |queries| && Label(queries[i].category) == Some(x) {
        var i :| 0 <= i < |queries| && Label(queries[i].category) == Some(x);
        if i < |init| {
          assert init[i] == queries[i];
        }
      }
    }
  }

  /** Only general queries leave no label. */
  lemma {:induction false} LabelsEmptyIff(queries: seq<HistoryEntry>)
    ensures Labels(queries) == [] <==> forall i :: 0 <= i < |queries| ==> queries[i].category == General
    decreases |queries|
  {
    if queries != [] {
      var init := queries[..|queries| - 1];
      LabelsEmptyIff(init);
      assert forall i :: 0 <= i < |init| ==> init[i] == queries[i];
    }
  }

  /**
   * The interests: at most five, no repeats, each a watchlist symbol or a query label, and all
   * of them when there are no more than five distinct ones.
   */
  lemma InterestsFacts(queries: seq<HistoryEntry>, stocks: seq<Stock>)
    ensures var r := Interests(queries, stocks);
            && |r| <= InterestCap
            && NoDuplicates(r)
            && (forall x :: x in r ==> x in Symbols(stocks) || x in Labels(queries))
            && (|Dedup(Symbols(stocks) + Labels(queries))| <= InterestCap ==>
                  forall x :: x in Symbols(stocks) + Labels(queries) ==> x in r)
  {
    var all := Symbols(stocks) + Labels(queries);
    DedupFacts(all);
    var d := Dedup(all);
    var r := Interests(queries, stocks);
    assert r == d[..|r|];
    forall x | x in r
      ensures x in all
    {
      var k :| 0 <= k < |r| && r[k] == x;
      assert d[k] == x;
    }
  }

  /** The watchlist comes first: the interests begin with the first five distinct symbols. */
  lemma WatchlistFirst(queries: seq<HistoryEntry>, stocks: seq<Stock>)
    ensures |Take(Dedup(Symbols(stocks)), InterestCap)| <= |Interests(queries, stocks)|
    ensures var symbols := Take(Dedup(Symbols(stocks)), InterestCap);
            Interests(queries, stocks)[..|symbols|] == symbols
  {
    DedupPrefix(Symbols(stocks), Labels(queries));
  }

  /** A general query changes no interest. */
  lemma GeneralAddsNothing(queries: seq<HistoryEntry>, query: string, stocks: seq<Stock>)
    ensures Interests(queries + [HistoryEntry(query, General)], stocks) == Interests(queries, stocks)
  {
    var more := queries + [HistoryEntry(query, General)];
    assert more[..|more| - 1] == queries;
    assert Labels(more) == Labels(queries) + [];
    assert Labels(more) == Labels(queries);
  }

  /** There are no interests exactly when the watchlist is empty and every query is general. */
  lemma InterestsEmptyIff(queries: seq<HistoryEntry>, stocks: seq<Stock>)
    ensures Interests(queries, stocks) == [] <==>
              stocks == [] && forall i :: 0 <= i < |queries| ==> queries[i].category == General
  {
    var all := Symbols(stocks) + Labels(queries);
    DedupFacts(all);
    LabelsEmptyIff(queries);
    if all != [] {
      assert all[0] in Dedup(all);
    }
  }

  // ---------------------------------------------------------------- the shown-insights log

  /** The user's first record's query history, or none: `userPref?.query_history || []`. */
  function HistoryOf(mine: seq<UserPreference>): seq<HistoryEntry> {
    if mine == [] then [] else mine[0].queryHistory
  }

  /** The user's first record's shown-insights log, or none: `userPref?.insights_shown || []`. */
  function ShownOf(mine: seq<UserPreference>): seq<string> {
    if mine == [] then [] else mine[0].insightsShown
  }

  /** The interests a generation asks about, for the store contents and the signed-in user. */
  function InterestsFor(preferences: seq<UserPreference>, email: string, stocks: seq<Stock>): seq<string> {
    Interests(LastN(HistoryOf(OwnedBy(preferences, email)), RecentCount), stocks)
  }

  /**
   * The log after showing `unseen`: the newly shown insights are at its end, it never exceeds
   * fifty entries, and it is what remains of the old log followed by them.
   */
  lemma {:induction false} RotateLogFacts(shown: seq<string>, unseen: seq<string>)
    requires |unseen| <= ShownCap
    ensures var log := LastN(shown + unseen, ShownCap);
            && |log| <= ShownCap
            && log[|log| - |unseen|..] == unseen
            && log[..|log| - |unseen|] == shown[|shown| + |unseen| - |log|..]
  {
    var all := shown + unseen;
    var log := LastN(all, ShownCap);
    assert log == all[|all| - |log|..];
    assert log[|log| - |unseen|..] == all[|shown|..] == unseen;
    assert log[..|log| - |unseen|] == all[|all| - |log|..|shown|];
  }

  /** Once logged, an insight is not new again as long as it stays in the log. */
  lemma NoRepeatAfterRotation(candidates: seq<string>, shown: seq<string>)
    requires |WithoutSeen(candidates, shown)| <= ShownCap
    ensures var unseen := WithoutSeen(candidates, shown);
            WithoutSeen(unseen, LastN(shown + unseen, ShownCap)) == []
  {
    var unseen := WithoutSeen(candidates, shown);
    var log := LastN(shown + unseen, ShownCap);
    RotateLogFacts(shown, unseen);
    forall x | x in unseen
      ensures x in log
    {
      var k :| 0 <= k < |unseen| && unseen[k] == x;
      assert log[|log| - |unseen|..][k] == x;
    }
    WithoutSeenAllSeen(unseen, log);
  }

  /**
   * What a completed log write leaves in the store: the user's first record, its log now
   * ending in the unseen insights and cut to fifty.
   */
  ghost predicate InsightsLogged(before: seq<UserPreference>, after: seq<UserPreference>, email: string, unseen: seq<string>) {
    var mine := OwnedBy(before, email);
    && mine != [] && unseen != []
    && after == ReplaceById(before, mine[0].id, mine[0].(insightsShown := LastN(mine[0].insightsShown + unseen, ShownCap)))
  }

  // ---------------------------------------------------------------- dismissals

  /** The positions below `n` that have not been dismissed, in increasing order. */
  function KeptIndices(n: nat, dismissed: seq<nat>): (r: seq<nat>)
    ensures |r| <= n
    ensures forall j :: 0 <= j < |r| ==> r[j] < n
  {
    if n == 0 then []
    else KeptIndices(n - 1, dismissed) + (if n - 1 in dismissed then [] else [n - 1])
  }

  /** The kept positions are exactly the undismissed ones below `n`, in increasing order. */
  lemma {:induction false} KeptFacts(n: nat, dismissed: seq<nat>)
    ensures var kept := KeptIndices(n, dismissed);
            && (forall i: nat :: i < n ==> (i in kept <==> i !in dismissed))
            && (forall j, k :: 0 <= j < k < |kept| ==> kept[j] < kept[k])
  {
    if n > 0 {
      KeptFacts(n - 1, dismissed);
    }
  }

  /** `visibleInsights`: the insights whose position has not been dismissed, in order. */
  function Visible(insights: seq<string>, dismissed: seq<nat>): (r: seq<string>)
    ensures |r| <= |insights|
    ensures forall j :: 0 <= j < |r| ==> r[j] in insights
  {
    var kept := KeptIndices(|insights|, dismissed);
    seq(|kept|, j requires 0 <= j < |kept| => insights[kept[j]])
  }

  /** The positions kept depend only on which positions below `n` are dismissed. */
  lemma {:induction false} KeptSameDismissals(n: nat, d1: seq<nat>, d2: seq<nat>)
    requires forall i: nat :: i < n ==> (i in d1 <==> i in d2)
    ensures KeptIndices(n, d1) == KeptIndices(n, d2)
  {
    if n > 0 {
      KeptSameDismissals(n - 1, d1, d2);
    }
  }

  /** Dismissing the kept position number `p` removes exactly that entry from the kept positions. */
  lemma {:induction false} KeptWithout(n: nat, dismissed: seq<nat>, p: nat)
    requires p < |KeptIndices(n, dismissed)|
    ensures var kept := KeptIndices(n, dismissed);
            KeptIndices(n, dismissed + [kept[p]]) == kept[..p] + kept[p + 1..]
  {
    var init := KeptIndices(n - 1, dismissed);
    if p < |init| {
      KeptWithout(n - 1, dismissed, p);
      KeptWithoutStep(n, dismissed, p);
    } else {
      KeptWithoutLast(n, dismissed);
    }
  }

  /** The inductive step of `KeptWithout`: a position below `n - 1` is removed. */
  lemma KeptWithoutStep(n: nat, dismissed: seq<nat>, p: nat)
    requires n > 0 && p < |KeptIndices(n - 1, dismissed)|
    requires var init := KeptIndices(n - 1, dismissed);
             KeptIndices(n - 1, dismissed + [init[p]]) == init[..p] + init[p + 1..]
    ensures p < |KeptIndices(n, dismissed)|
    ensures var kept := KeptIndices(n, dismissed);
            KeptIndices(n, dismissed + [kept[p]]) == kept[..p] + kept[p + 1..]
  {
    var init := KeptIndices(n - 1, dismissed);
    var k := init[p];
    var tail := if n - 1 in dismissed then [] else [n - 1];
    var kept := init + tail;
    assert KeptIndices(n, dismissed) == kept;
    assert kept[p] == k;
    assert (n - 1 in dismissed + [k]) == (n - 1 in dismissed);
    assert KeptIndices(n, dismissed + [k]) == init[..p] + init[p + 1..] + tail;
    assert kept[..p] == init[..p];
    assert kept[p + 1..] == init[p + 1..] + tail;
  }

  /** The base of `KeptWithout`: the last kept position is `n - 1` itself. */
  lemma KeptWithoutLast(n: nat, dismissed: seq<nat>)
    requires n > 0 && n - 1 !in dismissed
    ensures var kept := KeptIndices(n, dismissed);
            && |kept| == |KeptIndices(n - 1, dismissed)| + 1
            && KeptIndices(n, dismissed + [n - 1]) == kept[..|kept| - 1]
  {
    KeptSameDismissals(n - 1, dismissed + [n - 1], dismissed);
  }

  /** `handleDismiss` as written: the position among the visible insights is recorded as is. */
  function DismissAsWritten(dismissed: seq<nat>, position: nat): (r: seq<nat>)
    ensures |r| == |dismissed| + 1 && r[..|dismissed|] == dismissed && r[|dismissed|] == position
  {
    dismissed + [position]
  }

  /**
   * As written, a second click on the first visible insight does nothing once position 0 has
   * been dismissed: the recorded position is already dismissed.
   */
  lemma DismissAsWrittenNoEffect(insights: seq<string>, dismissed: seq<nat>, position: nat)
    requires position in dismissed
    ensures Visible(insights, DismissAsWritten(dismissed, position)) == Visible(insights, dismissed)
  {
    KeptSameDismissals(|insights|, dismissed + [position], dismissed);
  }

  /** Three insights a, b, c: dismissing the first visible one twice leaves b on screen. */
  lemma DismissAsWrittenExample(insights: seq<string>)
    requires insights == ["a", "b", "c"]
    ensures Visible(insights, DismissAsWritten([], 0)) == ["b", "c"]
    ensures Visible(insights, DismissAsWritten(DismissAsWritten([], 0), 0)) == ["b", "c"]
  {
    var once := DismissAsWritten([], 0);
    assert KeptIndices(3, once) == [1, 2];
    DismissAsWrittenNoEffect(insights, once, 0);
  }

  /** `handleDismiss` corrected: the visible position is translated back to its insight's position. */
  function Dismiss(insights: seq<string>, dismissed: seq<nat>, position: nat): (r: seq<nat>)
    requires position < |Visible(insights, dismissed)|
  {
    dismissed + [KeptIndices(|insights|, dismissed)[position]]
  }

  /** Dismissing the visible insight at `position` hides exactly that insight. */
  lemma DismissHidesOne(insights: seq<string>, dismissed: seq<nat>, position: nat)
    requires position < |Visible(insights, dismissed)|
    ensures var v := Visible(insights, dismissed);
            Visible(insights, Dismiss(insights, dismissed, position)) == v[..position] + v[position + 1..]
  {
    KeptWithout(|insights|, dismissed, position);
  }

  /** Nothing dismissed: every insight is visible, in order. */
  lemma VisibleWithoutDismissals(insights: seq<string>)
    ensures Visible(insights, []) == insights
  {
    var kept := KeptIndices(|insights|, []);
    assert |kept| == |insights| by {
      KeptAll(|insights|);
    }
    KeptAll(|insights|);
  }

  /** With no dismissals the kept positions are 0, 1, ..., n - 1. */
  lemma {:induction false} KeptAll(n: nat)
    ensures |KeptIndices(n, [])| == n
    ensures forall j :: 0 <= j < n ==> KeptIndices(n, [])[j] == j
  {
    if n > 0 {
      KeptAll(n - 1);
    }
  }

  /**
   * As written, dismissals outlive a regeneration: after position 0 was dismissed, the first of
   * two new insights is hidden although the user never saw it.
   */
  lemma StaleDismissalExample(unseen: seq<string>)
    requires unseen == ["x", "y"]
    ensures Visible(unseen, [0]) == ["y"]
  {
    assert KeptIndices(2, [0]) == [1];
  }

  /**
   * As written, a dismissal of position 0 that survives a regeneration hides the first new
   * insight, whatever the model proposed: that position is never kept, one card fewer is shown,
   * and, when the new insights have no repeats, the first of them is not on screen at all.
   */
  lemma StaleDismissalHidesFirst(candidates: seq<string>, shown: seq<string>, dismissed: seq<nat>)
    requires 0 in dismissed && WithoutSeen(candidates, shown) != []
    ensures var unseen := WithoutSeen(candidates, shown);
            && 0 !in KeptIndices(|unseen|, dismissed)
            && |Visible(unseen, dismissed)| < |unseen|
            && (NoDuplicates(unseen) ==> unseen[0] !in Visible(unseen, dismissed))
  {
    var unseen := WithoutSeen(candidates, shown);
    var kept := KeptIndices(|unseen|, dismissed);
    KeptFacts(|unseen|, dismissed);
    KeptLength(|unseen|, dismissed);
    if NoDuplicates(unseen) {
      forall j | 0 <= j < |kept|
        ensures Visible(unseen, dismissed)[j] != unseen[0]
      {
        assert kept[j] != 0;
      }
    }
  }

  /** Dismissing a position below `n` keeps fewer than `n` positions. */
  lemma {:induction false} KeptLength(n: nat, dismissed: seq<nat>)
    ensures (exists i: nat :: i < n && i in dismissed) ==> |KeptIndices(n, dismissed)| < n
  {
    if n > 0 {
      KeptLength(n - 1, dismissed);
    }
  }

  // ---------------------------------------------------------------- the component

  /**
   * What a completed generation leaves behind, from the store and request log before it
   * (`prefs0`, `requests0`) and the card's insights and dismissals before it, for the signed-in
   * `user`. `fetched` says whether the user and their records were fetched, and `candidates` is
   * the model's answer (none when no answer arrived). Without the records no request is made and
   * nothing changes; with them, exactly one insight request names the interests when there are
   * some, and none is made otherwise. With no answer nothing shown changes; with an answer the
   * unseen candidates become the insights, nothing is dismissed, and the log is either untouched
   * or rewritten.
   */
  ghost predicate Generated(stocks: seq<Stock>, user: Option<string>, fetched: bool, candidates: Option<seq<string>>,
                            prefs0: seq<UserPreference>, requests0: seq<LlmRequest>,
                            insights0: seq<string>, dismissed0: seq<nat>,
                            prefs1: seq<UserPreference>, requests1: seq<LlmRequest>,
                            insights1: seq<string>, dismissed1: seq<nat>)
  {
    && (!fetched ==> requests1 == requests0 && candidates.None?)
    && (fetched ==>
          && user.Some?
          && var interests := InterestsFor(prefs0, user.value, stocks);
          && (interests != [] ==> requests1 == requests0 + [InsightRequest(interests)])
          && (interests == [] ==> requests1 == requests0 && candidates.None?))
    && (candidates.None? ==> insights1 == insights0 && dismissed1 == dismissed0 && prefs1 == prefs0)
    && (candidates.Some? ==>
          && fetched
          && insights1 == WithoutSeen(candidates.value, ShownOf(OwnedBy(prefs0, user.value)))
          && dismissed1 == []
          && (prefs1 == prefs0 || InsightsLogged(prefs0, prefs1, user.value, insights1)))
  }

  class PersonalizedInsights {
    var insights: seq<string>
    var isGenerating: bool
    /** Dismissed positions in `insights`. */
    var dismissed: seq<nat>

    constructor()
      ensures insights == [] && !isGenerating && dismissed == []
    {
      insights := [];
      isGenerating := false;
      dismissed := [];
    }

    function VisibleInsights(): seq<string>
      reads this
    {
      Visible(insights, dismissed)
    }

    /** `generateInsights` up to its first `await`: a generation in flight makes it return at once. */
    method Start() returns (started: bool)
      modifies this`isGenerating
      ensures started <==> !old(isGenerating)
      ensures isGenerating
    {
      if isGenerating {
        return false;
      }
      isGenerating := true;
      started := true;
    }

    /**
     * `generateInsights` after its first `await`. With the user and their records at hand, the
     * interests of the last ten queries and the watchlist are computed; when there are some,
     * exactly one insight request names them. The candidates it returns, less those in the
     * shown log, become the insights and the dismissals are cleared (a correction: the
     * component as written keeps them, see `StaleDismissalHidesFirst`); when the user has a record
     * and some insight is new, the log is rewritten. Any failing call ends the generation
     * without further change. `fetched` says whether the user and their records arrived, and
     * `candidates` is the model's answer when one arrived.
     */
    method Complete(stocks: seq<Stock>, svc: Services) returns (fetched: bool, candidates: Option<seq<string>>)
      requires isGenerating
      modifies this`insights, this`isGenerating, this`dismissed, svc`preferences, svc`requests
      ensures !isGenerating
      ensures Generated(stocks, svc.currentUser, fetched, candidates, old(svc.preferences), old(svc.requests),
                        old(insights), old(dismissed), svc.preferences, svc.requests, insights, dismissed)
    {
      fetched, candidates := false, None;
      var user := svc.Me();
      if user.Failure? {
        isGenerating := false;
        return;
      }
      var prefs := svc.FilterPreferences(user.value);
      if prefs.Failure? {
        isGenerating := false;
        return;
      }
      fetched := true;
      var recent := LastN(HistoryOf(prefs.value), RecentCount);
      var interests := DetectInterests(recent, stocks);
      if |interests| > 0 {
        var result := svc.InvokeLLMInsights(interests);
        if result.Success? {
          var proposed := result.value.GetOr([]);
          var shown := ShownOf(prefs.value);
          var unseen := WithoutSeen(proposed, shown);
          insights := unseen;
          dismissed := [];
          candidates := Some(proposed);
          if prefs.value != [] && |unseen| > 0 {
            var pref := prefs.value[0];
            var _ := svc.UpdatePreference(pref.id, pref.(insightsShown := LastN(shown + unseen, ShownCap)));
          }
        }
      }
      isGenerating := false;
    }

    /** A whole `generateInsights`: nothing at all happens while another generation runs. */
    method GenerateInsights(stocks: seq<Stock>, svc: Services) returns (started: bool, fetched: bool, candidates: Option<seq<string>>)
      modifies this, svc`preferences, svc`requests
      ensures started <==> !old(isGenerating)
      ensures !started ==> unchanged(this) && unchanged(svc) && !fetched && candidates.None?
      ensures started ==> !isGenerating
      ensures started ==> Generated(stocks, svc.currentUser, fetched, candidates, old(svc.preferences), old(svc.requests),
                                    old(insights), old(dismissed), svc.preferences, svc.requests, insights, dismissed)
    {
      started := Start();
      fetched, candidates := false, None;
      if started {
        fetched, candidates := Complete(stocks, svc);
      }
    }

    /** The watchlist effect: a generation is attempted only for a non-empty watchlist. */
    method OnStocksChanged(stocks: seq<Stock>, svc: Services) returns (started: bool, fetched: bool, candidates: Option<seq<string>>)
      modifies this, svc`preferences, svc`requests
      ensures started <==> stocks != [] && !old(isGenerating)
      ensures !started ==> unchanged(this) && unchanged(svc) && !fetched && candidates.None?
      ensures started ==> !isGenerating
      ensures started ==> Generated(stocks, svc.currentUser, fetched, candidates, old(svc.preferences), old(svc.requests),
                                    old(insights), old(dismissed), svc.preferences, svc.requests, insights, dismissed)
    {
      started, fetched, candidates := false, false, None;
      if |stocks| > 0 {
        started, fetched, candidates := GenerateInsights(stocks, svc);
      }
    }

    /** `handleDismiss` (corrected): the insight shown at `position` is hidden, and only it. */
    method HandleDismiss(position: nat)
      requires position < |VisibleInsights()|
      modifies this`dismissed
      ensures dismissed == Dismiss(insights, old(dismissed), position)
      ensures VisibleInsights() == old(VisibleInsights())[..position] + old(VisibleInsights())[position + 1..]
    {
      DismissHidesOne(insights, dismissed, position);
      dismissed := Dismiss(insights, dismissed, position);
    }
  }
}
