/**
 * `LogAnalyzer.AnalyzeLogs` (internal/analyzer/log_analyzer.go): fetch the
 * template counts of the requested window and of the equally long window
 * just before it, score every template, rank the scores, keep the top ten
 * and attach the representative logs of the kept templates.
 *
 * The database is the abstract `Store`; the method returns, beside its
 * result, the queries it sent, so that "no query was made" can be stated.
 */
module Analyzer {
  import opened Wrappers
  import opened Scoring
  import opened ClickHouse

  /** One anomalous template as the analyzer reports it. */
  datatype LogGroup = LogGroup(
    representativeLogs: seq<string>,
    relativeChange: real,
    klContribution: real,
    templateId: string)

  /** A template with its KL term, the element type of the ranking. */
  datatype TemplateKL = TemplateKL(templateId: string, klValue: real)

  /** How many templates are kept. */
  const TopN: nat := 10

  function Min(a: nat, b: nat): nat {
    if a < b then a else b
  }

  /**
   * The baseline window: as long as the requested window, and ending where
   * it starts.
   */
  function BaselineWindow(w: Window): (b: Window)
    ensures b.end == w.start
    ensures b.end - b.start == w.end - w.start
  {
    var duration := w.end - w.start;
    Window(w.start - duration, w.start)
  }

  /**
   * For a proper window the baseline starts strictly earlier, and under the
   * half-open test of the counts query the two windows share no timestamp
   * and together cover [baseline start, end) without a gap.
   */
  lemma BaselineAdjacent(w: Window)
    requires w.start < w.end
    ensures BaselineWindow(w).start < w.start
    ensures forall ts :: !(InWindow(ts, BaselineWindow(w)) && InWindow(ts, w))
    ensures forall ts :: InWindow(ts, Window(BaselineWindow(w).start, w.end))
                     <==> InWindow(ts, BaselineWindow(w)) || InWindow(ts, w)
  {
  }

  /** The template IDs of a ranking, in order. */
  function Ids(s: seq<TemplateKL>): (ids: seq<string>)
    ensures |ids| == |s|
    ensures forall i | 0 <= i < |s| :: ids[i] == s[i].templateId
  {
    seq(|s|, i requires 0 <= i < |s| => s[i].templateId)
  }

  /** The `sort.Slice` order: KL terms never increase along the sequence. */
  predicate Descending(s: seq<TemplateKL>) {
    forall i, j | 0 <= i < j < |s| :: s[i].klValue >= s[j].klValue
  }

  /** No template ID occurs twice. */
  predicate DistinctIds(s: seq<TemplateKL>) {
    forall i, j | 0 <= i < j < |s| :: s[i].templateId != s[j].templateId
  }

  /** `s` lists every entry of the map `kl` exactly once, in some order. */
  predicate EntriesOf(s: seq<TemplateKL>, kl: map<string, real>) {
    && |s| == |kl|
    && (forall i | 0 <= i < |s| :: s[i].templateId in kl && s[i].klValue == kl[s[i].templateId])
    && DistinctIds(s)
    && (forall t | t in kl :: exists i | 0 <= i < |s| :: s[i].templateId == t)
  }

  /**
   * `top` is a valid outcome of sorting the entries of `kl` by descending KL
   * term and keeping the first `k`: it has min(|kl|, k) distinct entries of
   * `kl` in descending order, and no entry left out scores above a kept one.
   */
  predicate IsTopK(top: seq<TemplateKL>, kl: map<string, real>, k: nat) {
    && |top| == Min(|kl|, k)
    && Descending(top)
    && (forall i | 0 <= i < |top| :: top[i].templateId in kl && top[i].klValue == kl[top[i].templateId])
    && DistinctIds(top)
    && (forall t, i | t in kl && t !in Ids(top) && 0 <= i < |top| :: kl[t] <= top[i].klValue)
  }

  /** The `range klContributions` loop: one entry per key of the map. */
  method CollectScores(kl: map<string, real>) returns (entries: seq<TemplateKL>)
    ensures EntriesOf(entries, kl)
  {
    entries := [];
    var remaining := kl.Keys;
    while remaining != {}
      invariant remaining <= kl.Keys
      invariant |entries| + |remaining| == |kl|
      invariant forall i | 0 <= i < |entries| ::
        entries[i].templateId in kl.Keys - remaining && entries[i].klValue == kl[entries[i].templateId]
      invariant DistinctIds(entries)
      invariant forall t | t in kl.Keys - remaining :: exists i | 0 <= i < |entries| :: entries[i].templateId == t
      decreases remaining
    {
      var t :| t in remaining;
      var before := entries;
      entries := entries + [TemplateKL(t, kl[t])];
      forall u | u in kl.Keys - (remaining - {t})
        ensures exists i | 0 <= i < |entries| :: entries[i].templateId == u
      {
        if u == t {
          assert entries[|before|].templateId == u;
        } else {
          assert u in kl.Keys - remaining;
          var i :| 0 <= i < |before| && before[i].templateId == u;
          assert entries[i].templateId == u;
        }
      }
      remaining := remaining - {t};
    }
    assert kl.Keys - remaining == kl.Keys;
  }

  /** The position of a largest KL term in a[from..]. */
  method MaxFrom(a: array<TemplateKL>, from: nat) returns (m: nat)
    requires from < a.Length
    ensures from <= m < a.Length
    ensures forall q | from <= q < a.Length :: a[m].klValue >= a[q].klValue
  {
    m := from;
    var j := from + 1;
    while j < a.Length
      invariant from <= m < j <= a.Length
      invariant forall q | from <= q < j :: a[m].klValue >= a[q].klValue
    {
      if a[j].klValue > a[m].klValue {
        m := j;
      }
      j := j + 1;
    }
  }

  /**
   * `sort.Slice` with "greater KL first": the array ends up a permutation of
   * itself with non-increasing KL terms. Ties may end up in any order.
   */
  method SortByKLDescending(a: array<TemplateKL>)
    modifies a
    ensures Descending(a[..])
    ensures multiset(a[..]) == multiset(old(a[..]))
  {
    var i := 0;
    while i < a.Length
      invariant 0 <= i <= a.Length
      invariant forall p, q | 0 <= p < q < i :: a[p].klValue >= a[q].klValue
      invariant forall p, q | 0 <= p < i <= q < a.Length :: a[p].klValue >= a[q].klValue
      invariant multiset(a[..]) == multiset(old(a[..]))
    {
      var m := MaxFrom(a, i);
      a[i], a[m] := a[m], a[i];
      i := i + 1;
    }
  }

  /** In a sequence with distinct IDs, no entry occurs twice. */
  lemma {:induction false} DistinctOccursOnce(s: seq<TemplateKL>, x: TemplateKL)
    requires DistinctIds(s)
    ensures multiset(s)[x] <= 1
  {
    if |s| > 0 {
      var init := s[..|s| - 1];
      assert s == init + [s[|s| - 1]];
      DistinctOccursOnce(init, x);
      if x == s[|s| - 1] {
        assert x !in init;
      }
    }
  }

  /** An entry at two positions occurs at least twice. */
  lemma RepeatedOccursTwice(s: seq<TemplateKL>, i: int, j: int)
    requires 0 <= i < j < |s| && s[i] == s[j]
    ensures multiset(s)[s[i]] >= 2
  {
    assert s == s[..j] + [s[j]] + s[j + 1..];
    assert s[i] in s[..j];
  }

  /** Any permutation of the entries of a map still lists each entry once. */
  lemma EntriesOfPermutation(s: seq<TemplateKL>, s2: seq<TemplateKL>, kl: map<string, real>)
    requires EntriesOf(s, kl)
    requires multiset(s2) == multiset(s)
    ensures EntriesOf(s2, kl)
  {
    assert |s2| == |multiset(s2)| == |multiset(s)| == |s|;
    forall i | 0 <= i < |s2|
      ensures s2[i].templateId in kl && s2[i].klValue == kl[s2[i].templateId]
    {
      assert s2[i] in multiset(s);
    }
    forall i, j | 0 <= i < j < |s2|
      ensures s2[i].templateId != s2[j].templateId
    {
      if s2[i].templateId == s2[j].templateId {
        assert s2[i] == s2[j];
        RepeatedOccursTwice(s2, i, j);
        DistinctOccursOnce(s, s2[i]);
        assert false;
      }
    }
    forall t | t in kl
      ensures exists i | 0 <= i < |s2| :: s2[i].templateId == t
    {
      var p :| 0 <= p < |s| && s[p].templateId == t;
      assert s[p] in multiset(s2);
      var q :| 0 <= q < |s2| && s2[q] == s[p];
    }
  }

  /** The first min(|kl|, TopN) entries of a sorted listing are a top-N selection. */
  lemma TopOfSorted(s: seq<TemplateKL>, kl: map<string, real>, n: nat)
    requires EntriesOf(s, kl) && Descending(s)
    requires n == Min(|s|, TopN)
    ensures IsTopK(s[..n], kl, TopN)
  {
    forall t, i | t in kl && t !in Ids(s[..n]) && 0 <= i < n
      ensures kl[t] <= s[..n][i].klValue
    {
      OmittedScoresLower(s, kl, n, t, i);
    }
  }

  /** An ID outside the first n of a sorted listing scores at most each of them. */
  lemma OmittedScoresLower(s: seq<TemplateKL>, kl: map<string, real>, n: nat, t: string, i: nat)
    requires EntriesOf(s, kl) && Descending(s)
    requires i < n <= |s|
    requires t in kl && t !in Ids(s[..n])
    ensures kl[t] <= s[i].klValue
  {
    var p :| 0 <= p < |s| && s[p].templateId == t;
    assert n <= p;
  }

  /**
   * Lines 85-98: list the scores, sort them by descending KL term and keep
   * the first TopN.
   */
  method RankTopTemplates(kl: map<string, real>) returns (top: seq<TemplateKL>)
    ensures IsTopK(top, kl, TopN)
  {
    var entries := CollectScores(kl);
    var a := new TemplateKL[|entries|](i requires 0 <= i < |entries| => entries[i]);
    assert a[..] == entries;
    SortByKLDescending(a);
    var sorted := a[..];
    EntriesOfPermutation(entries, sorted, kl);
    var n := if |sorted| > TopN then TopN else |sorted|;
    top := sorted[..n];
    TopOfSorted(sorted, kl, n);
  }

  /** A Go map read: an absent key reads as 0. */
  function Lookup(m: map<string, real>, t: string): real {
    if t in m then m[t] else 0.0
  }

  /**
   * The groups built from the ranked IDs: one per ID that has an entry in
   * the representatives map, in the order of the IDs.
   */
  function BuildGroups(ids: seq<string>, reps: map<string, seq<string>>, rel: map<string, real>, kl: map<string, real>)
    : seq<LogGroup>
  {
    if |ids| == 0 then []
    else
      var groups := BuildGroups(ids[..|ids| - 1], reps, rel, kl);
      var t := ids[|ids| - 1];
      if t in reps then groups + [LogGroup(reps[t], Lookup(rel, t), Lookup(kl, t), t)] else groups
  }

  /**
   * The positions of `ids` whose ID has representatives: strictly increasing,
   * and exactly those positions.
   */
  function SelectedPositions(ids: seq<string>, reps: map<string, seq<string>>): (pos: seq<nat>)
    ensures |pos| <= |ids|
    ensures forall i | 0 <= i < |pos| :: pos[i] < |ids| && ids[pos[i]] in reps
    ensures forall i, j | 0 <= i < j < |pos| :: pos[i] < pos[j]
    ensures forall p | 0 <= p < |ids| && ids[p] in reps :: p in pos
  {
    if |ids| == 0 then []
    else
      var init := SelectedPositions(ids[..|ids| - 1], reps);
      if ids[|ids| - 1] in reps then init + [|ids| - 1] else init
  }

  /**
   * Group i is built from the ID at the i-th selected position, with that
   * ID's logs, relative change and KL term.
   */
  lemma {:induction false} BuildGroupsSelects(ids: seq<string>, reps: map<string, seq<string>>, rel: map<string, real>, kl: map<string, real>)
    ensures |BuildGroups(ids, reps, rel, kl)| == |SelectedPositions(ids, reps)|
    ensures forall i | 0 <= i < |SelectedPositions(ids, reps)| ::
      var t := ids[SelectedPositions(ids, reps)[i]];
      BuildGroups(ids, reps, rel, kl)[i] == LogGroup(reps[t], Lookup(rel, t), Lookup(kl, t), t)
  {
    if |ids| > 0 {
      var init := ids[..|ids| - 1];
      BuildGroupsSelects(init, reps, rel, kl);
      var pos := SelectedPositions(ids, reps);
      var initPos := SelectedPositions(init, reps);
      forall i | 0 <= i < |initPos|
        ensures ids[initPos[i]] == init[initPos[i]]
      {
      }
    }
  }

  /**
   * The groups carry representative logs as the store returned them: if the
   * store never maps an ID to an empty list, no group is without logs.
   */
  lemma GroupsHaveLogsWhenStoreDoes(ids: seq<string>, reps: map<string, seq<string>>, rel: map<string, real>, kl: map<string, real>)
    requires forall t | t in reps :: |reps[t]| >= 1
    ensures forall g | g in BuildGroups(ids, reps, rel, kl) :: |g.representativeLogs| >= 1
  {
    BuildGroupsSelects(ids, reps, rel, kl);
  }

  /** Lines 117-131: the loop that appends one group per ID with representatives. */
  method AssembleGroups(ids: seq<string>, reps: map<string, seq<string>>, rel: map<string, real>, kl: map<string, real>)
    returns (groups: seq<LogGroup>)
    ensures groups == BuildGroups(ids, reps, rel, kl)
  {
    groups := [];
    for i := 0 to |ids|
      invariant groups == BuildGroups(ids[..i], reps, rel, kl)
    {
      assert ids[..i + 1][..i] == ids[..i];
      var t := ids[i];
      if t in reps {
        groups := groups + [LogGroup(reps[t], Lookup(rel, t), Lookup(kl, t), t)];
      }
    }
    assert ids[..|ids|] == ids;
  }

  /**
   * The groups built from a top-N selection: at most N, with distinct IDs,
   * ranked by non-increasing KL term, each carrying its own KL term, and
   * present exactly for the selected IDs that have representatives.
   */
  lemma GroupsRanked(top: seq<TemplateKL>, kl: map<string, real>, reps: map<string, seq<string>>, rel: map<string, real>)
    requires IsTopK(top, kl, TopN)
    ensures var groups := BuildGroups(Ids(top), reps, rel, kl);
      && |groups| <= TopN
      && (forall i, j | 0 <= i < j < |groups| ::
            groups[i].klContribution >= groups[j].klContribution && groups[i].templateId != groups[j].templateId)
      && (forall i | 0 <= i < |groups| ::
            && groups[i].templateId in kl && groups[i].klContribution == kl[groups[i].templateId]
            && groups[i].templateId in reps && groups[i].representativeLogs == reps[groups[i].templateId]
            && groups[i].relativeChange == Lookup(rel, groups[i].templateId))
      && (forall t :: (exists i | 0 <= i < |groups| :: groups[i].templateId == t) <==> t in Ids(top) && t in reps)
  {
    var ids := Ids(top);
    var groups := BuildGroups(ids, reps, rel, kl);
    var pos := SelectedPositions(ids, reps);
    BuildGroupsSelects(ids, reps, rel, kl);
    assert |groups| <= TopN;
    forall i | 0 <= i < |groups|
      ensures groups[i].templateId == top[pos[i]].templateId
      ensures groups[i].klContribution == top[pos[i]].klValue
      ensures groups[i].templateId in kl && groups[i].klContribution == kl[groups[i].templateId]
      ensures groups[i].templateId in reps && groups[i].representativeLogs == reps[groups[i].templateId]
      ensures groups[i].relativeChange == Lookup(rel, groups[i].templateId)
    {
    }
    forall i, j | 0 <= i < j < |groups|
      ensures groups[i].klContribution >= groups[j].klContribution
      ensures groups[i].templateId != groups[j].templateId
    {
      assert pos[i] < pos[j];
    }
    forall t | t in ids && t in reps
      ensures exists i | 0 <= i < |groups| :: groups[i].templateId == t
    {
      var p :| 0 <= p < |ids| && ids[p] == t;
      assert p in pos;
      var i :| 0 <= i < |pos| && pos[i] == p;
      assert groups[i].templateId == t;
    }
    forall t | exists i | 0 <= i < |groups| :: groups[i].templateId == t
      ensures t in ids && t in reps
    {
      var i :| 0 <= i < |groups| && groups[i].templateId == t;
      assert ids[pos[i]] == t;
    }
  }

  /**
   * What `AnalyzeLogs` returns and which queries it sends. An error from a
   * count fetch is returned as the client reported it; otherwise the scores
   * of the two windows are ranked and assembled as `Ranked` says.
   */
  ghost predicate Analyzed(db: Store, id: Identity, w: Window, ln: real -> real,
                           r: Result<seq<LogGroup>, string>, queries: seq<Query>)
  {
    var bw := BaselineWindow(w);
    var baseline := CountsResult(db, id, bw);
    var current := CountsResult(db, id, w);
    if baseline.Failure? then
      r == Failure(baseline.error) && queries == [CountsQuery(bw)]
    else if current.Failure? then
      r == Failure(current.error) && queries == [CountsQuery(bw), CountsQuery(w)]
    else
      && |queries| >= 2 && queries[..2] == [CountsQuery(bw), CountsQuery(w)]
      && Ranked(db, id, KLDivergence(current.value, baseline.value, ln),
                RelativeChanges(current.value, baseline.value), r, queries[2..])
  }

  /**
   * The outcome of ranking the scores `kl` and assembling groups. With nothing
   * scored the result is empty and no representatives are fetched;
   * otherwise the representatives of some valid top-N selection (ties may be
   * broken either way) are fetched, and a fetch error is returned as the
   * client reported it.
   */
  ghost predicate Ranked(db: Store, id: Identity, kl: map<string, real>, rel: map<string, real>,
                         r: Result<seq<LogGroup>, string>, queries: seq<Query>)
  {
    if |kl| == 0 then
      r == Success([]) && queries == []
    else
      exists top | IsTopK(top, kl, TopN) ::
        && queries == [RepresentativesQuery(Ids(top))]
        && Assembled(db, id, top, rel, kl, r)
  }

  /** The outcome of fetching the representatives of `top` and assembling the groups. */
  ghost predicate Assembled(db: Store, id: Identity, top: seq<TemplateKL>,
                            rel: map<string, real>, kl: map<string, real>, r: Result<seq<LogGroup>, string>)
  {
    var reps := RepresentativesResult(db, id, Ids(top));
    r == (if reps.Failure? then Failure(reps.error) else Success(BuildGroups(Ids(top), reps.value, rel, kl)))
  }

  /** Lines 79-131: rank the scores, keep the top N, fetch their logs and build the groups. */
  method RankAndAssemble(db: Store, id: Identity, kl: map<string, real>, rel: map<string, real>)
    returns (r: Result<seq<LogGroup>, string>, queries: seq<Query>)
    ensures Ranked(db, id, kl, rel, r, queries)
  {
    var top := RankTopTemplates(kl);
    if |top| == 0 {
      return Success([]), [];
    }
    var ids := Ids(top);
    var reps;
    reps, queries := GetRepresentativeLogs(db, id, ids);
    if reps.Failure? {
      r := Failure(reps.error);
    } else {
      var groups := AssembleGroups(ids, reps.value, rel, kl);
      r := Success(groups);
    }
    assert Assembled(db, id, top, rel, kl, r);
  }

  /** `AnalyzeLogs`, the store calls included. */
  method AnalyzeLogs(db: Store, id: Identity, w: Window, ln: real -> real)
    returns (r: Result<seq<LogGroup>, string>, queries: seq<Query>)
    ensures Analyzed(db, id, w, ln, r, queries)
  {
    var bw := BaselineWindow(w);
    var baselineCounts, sent := GetTemplateCounts(db, id, bw);
    queries := sent;
    if baselineCounts.Failure? {
      return Failure(baselineCounts.error), queries;
    }
    var currentCounts, sent2 := GetTemplateCounts(db, id, w);
    queries := queries + sent2;
    if currentCounts.Failure? {
      return Failure(currentCounts.error), queries;
    }
    var kl := CalculateKLDivergence(currentCounts.value, baselineCounts.value, ln);
    var rel := CalculateRelativeChanges(currentCounts.value, baselineCounts.value);
    var sent3;
    r, sent3 := RankAndAssemble(db, id, kl, rel);
    assert (queries + sent3)[2..] == sent3;
    queries := queries + sent3;
  }

  /**
   * A successful analysis returns at most TopN groups with distinct IDs,
   * ranked by non-increasing KL term, each carrying its template's KL term
   * and relative change.
   */
  lemma AnalyzedGroupsRanked(db: Store, id: Identity, w: Window, ln: real -> real,
                             r: Result<seq<LogGroup>, string>, queries: seq<Query>)
    requires Analyzed(db, id, w, ln, r, queries) && r.Success?
    ensures CountsResult(db, id, BaselineWindow(w)).Success? && CountsResult(db, id, w).Success?
    ensures |r.value| <= TopN
    ensures forall i, j | 0 <= i < j < |r.value| ::
      r.value[i].klContribution >= r.value[j].klContribution && r.value[i].templateId != r.value[j].templateId
    ensures var current := CountsResult(db, id, w).value;
            var baseline := CountsResult(db, id, BaselineWindow(w)).value;
            var kl := KLDivergence(current, baseline, ln);
            var rel := RelativeChanges(current, baseline);
            forall i | 0 <= i < |r.value| ::
              && r.value[i].templateId in kl && r.value[i].klContribution == kl[r.value[i].templateId]
              && r.value[i].templateId in rel && r.value[i].relativeChange == rel[r.value[i].templateId]
  {
    var current := CountsResult(db, id, w).value;
    var baseline := CountsResult(db, id, BaselineWindow(w)).value;
    var kl := KLDivergence(current, baseline, ln);
    var rel := RelativeChanges(current, baseline);
    if |kl| > 0 {
      var top :| IsTopK(top, kl, TopN)
        && var reps := RepresentativesResult(db, id, Ids(top));
           r == (if reps.Failure? then Failure(reps.error) else Success(BuildGroups(Ids(top), reps.value, rel, kl)));
      var reps := RepresentativesResult(db, id, Ids(top));
      GroupsRanked(top, kl, reps.value, rel);
      assert rel.Keys == kl.Keys;
    }
  }

  /**
   * When either window counted nothing, nothing is scored: the result is
   * empty, without error, and no representatives are fetched.
   */
  lemma AnalyzedEmptyWindow(db: Store, id: Identity, w: Window, ln: real -> real,
                            r: Result<seq<LogGroup>, string>, queries: seq<Query>)
    requires Analyzed(db, id, w, ln, r, queries)
    requires CountsResult(db, id, BaselineWindow(w)).Success? && CountsResult(db, id, w).Success?
    requires CountTotal(CountsResult(db, id, w).value) == 0
          || CountTotal(CountsResult(db, id, BaselineWindow(w)).value) == 0
    ensures r == Success([])
    ensures forall q | q in queries :: q.CountsQuery?
  {
  }

  /**
   * When both windows counted something, every template of either window
   * is scored, and exactly the top min(|templates|, TopN) IDs are sent to
   * the representatives query.
   */
  lemma AnalyzedFetchesTopIds(db: Store, id: Identity, w: Window, ln: real -> real,
                              r: Result<seq<LogGroup>, string>, queries: seq<Query>)
    requires Analyzed(db, id, w, ln, r, queries)
    requires CountsResult(db, id, BaselineWindow(w)).Success? && CountsResult(db, id, w).Success?
    requires CountTotal(CountsResult(db, id, w).value) > 0
    requires CountTotal(CountsResult(db, id, BaselineWindow(w)).value) > 0
    ensures |queries| == 3 && queries[2].RepresentativesQuery?
    ensures var all := CountsResult(db, id, w).value.Keys + CountsResult(db, id, BaselineWindow(w)).value.Keys;
            && |queries[2].templateIds| == Min(|all|, TopN) > 0
            && forall t | t in queries[2].templateIds :: t in all
  {
    var current := CountsResult(db, id, w).value;
    var baseline := CountsResult(db, id, BaselineWindow(w)).value;
    var kl := KLDivergence(current, baseline, ln);
    NonEmptyWhenCounted(current);
    assert kl.Keys == current.Keys + baseline.Keys;
    assert |kl| > 0;
  }

  /** A window with a positive total has at least one template. */
  lemma NonEmptyWhenCounted(m: CountMap)
    requires CountTotal(m) > 0
    ensures |m| > 0
  {
  }

  /**
   * Given the queries sent, the outcome of an analysis is determined: the
   * only freedom, the order of tied templates, shows in the representatives
   * query.
   */
  lemma AnalyzedDeterminedByQueries(db: Store, id: Identity, w: Window, ln: real -> real,
                                    r1: Result<seq<LogGroup>, string>, r2: Result<seq<LogGroup>, string>,
                                    queries: seq<Query>)
    requires Analyzed(db, id, w, ln, r1, queries) && Analyzed(db, id, w, ln, r2, queries)
    ensures r1 == r2
  {
    var bw := BaselineWindow(w);
    var baseline := CountsResult(db, id, bw);
    var current := CountsResult(db, id, w);
    if baseline.Success? && current.Success? {
      var kl := KLDivergence(current.value, baseline.value, ln);
      var rel := RelativeChanges(current.value, baseline.value);
      if |kl| > 0 {
        var top1 :| IsTopK(top1, kl, TopN) && queries[2..] == [RepresentativesQuery(Ids(top1))]
                    && Assembled(db, id, top1, rel, kl, r1);
        var top2 :| IsTopK(top2, kl, TopN) && queries[2..] == [RepresentativesQuery(Ids(top2))]
                    && Assembled(db, id, top2, rel, kl, r2);
        assert Ids(top1) == Ids(top2);
      }
    }
  }
}
