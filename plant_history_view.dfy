/**
 * The history page's logic in client/src/components/PlantHistory.tsx: the
 * search filter over the fetched records and the status badge colour.
 */
module PlantHistoryView {
  import opened JsString
  import opened Schema
  import opened Storage
  import PlantAnalysisView

  /** `name?.toLowerCase().includes(term.toLowerCase())`: false when the name is `null`. */
  predicate NameMatches(name: Option<string>, term: string)
  {
    name.Some? && Includes(ToLowerCase(name.value), ToLowerCase(term))
  }

  /** The filter's predicate: the common name or the scientific name matches. */
  predicate Matches(plant: PlantAnalysis, searchTerm: string)
  {
    NameMatches(plant.commonName, searchTerm) || NameMatches(plant.scientificName, searchTerm)
  }

  /** `plantHistory.filter(plant => ...)`. */
  function FilteredHistory(plantHistory: seq<PlantAnalysis>, searchTerm: string): (r: seq<PlantAnalysis>)
    ensures |r| <= |plantHistory|
    ensures forall p :: p in r <==> p in plantHistory && Matches(p, searchTerm)
  {
    if plantHistory == [] then []
    else
      var rest := FilteredHistory(plantHistory[1..], searchTerm);
      assert forall p :: p in plantHistory <==> p == plantHistory[0] || p in plantHistory[1..];
      if Matches(plantHistory[0], searchTerm) then [plantHistory[0]] + rest else rest
  }

  /** A matching record is kept as many times as it was fetched; a record that does not match, never. */
  lemma {:induction false} FilterKeepsCopies(plantHistory: seq<PlantAnalysis>, searchTerm: string, p: PlantAnalysis)
    ensures multiset(FilteredHistory(plantHistory, searchTerm))[p]
         == if Matches(p, searchTerm) then multiset(plantHistory)[p] else 0
    decreases |plantHistory|
  {
    if plantHistory != [] {
      FilterKeepsCopies(plantHistory[1..], searchTerm, p);
      assert plantHistory == [plantHistory[0]] + plantHistory[1..];
    }
  }

  /** The filtered list keeps the fetched order: it is a subsequence of the fetched list. */
  lemma {:induction false} FilteredIsSubsequence(plantHistory: seq<PlantAnalysis>, searchTerm: string)
    ensures IsSubsequence(FilteredHistory(plantHistory, searchTerm), plantHistory)
    decreases |plantHistory|
  {
    if plantHistory != [] {
      FilteredIsSubsequence(plantHistory[1..], searchTerm);
      var r := FilteredHistory(plantHistory, searchTerm);
      if Matches(plantHistory[0], searchTerm) {
        assert r[1..] == FilteredHistory(plantHistory[1..], searchTerm);
      }
    }
  }

  /** Filtering the most-recent-first list the server sends keeps it most recent first. */
  lemma {:induction false} FilterKeepsDateOrder(plantHistory: seq<PlantAnalysis>, searchTerm: string)
    requires SortedByDateDesc(plantHistory)
    ensures SortedByDateDesc(FilteredHistory(plantHistory, searchTerm))
    decreases |plantHistory|
  {
    if plantHistory != [] {
      var tail := plantHistory[1..];
      assert SortedByDateDesc(tail) by {
        forall i, j | 0 <= i < j < |tail| ensures DateKey(tail[i]) >= DateKey(tail[j]) {
          assert tail[i] == plantHistory[i + 1] && tail[j] == plantHistory[j + 1];
        }
      }
      FilterKeepsDateOrder(tail, searchTerm);
      var rest := FilteredHistory(tail, searchTerm);
      if Matches(plantHistory[0], searchTerm) {
        var r := [plantHistory[0]] + rest;
        forall i, j | 0 <= i < j < |r| ensures DateKey(r[i]) >= DateKey(r[j]) {
          assert r[j] == rest[j - 1];
          if i == 0 {
            assert rest[j - 1] in tail;
            var k :| 0 <= k < |tail| && tail[k] == rest[j - 1];
            assert plantHistory[k + 1] == r[j];
          } else {
            assert r[i] == rest[i - 1];
          }
        }
      }
    }
  }

  /** The filter compares lowered strings, so the case of the search term never matters. */
  lemma {:induction false} FilterIgnoresTermCase(plantHistory: seq<PlantAnalysis>, t1: string, t2: string)
    requires ToLowerCase(t1) == ToLowerCase(t2)
    ensures FilteredHistory(plantHistory, t1) == FilteredHistory(plantHistory, t2)
    decreases |plantHistory|
  {
    if plantHistory != [] {
      FilterIgnoresTermCase(plantHistory[1..], t1, t2);
      assert Matches(plantHistory[0], t1) == Matches(plantHistory[0], t2);
    }
  }

  /** Lowering the search term first changes nothing: typing "MONSTERA" finds what "monstera" finds. */
  lemma FilterTermLowered(plantHistory: seq<PlantAnalysis>, searchTerm: string)
    ensures FilteredHistory(plantHistory, ToLowerCase(searchTerm)) == FilteredHistory(plantHistory, searchTerm)
  {
    LowerIdempotent(searchTerm);
    FilterIgnoresTermCase(plantHistory, ToLowerCase(searchTerm), searchTerm);
  }

  /** With an empty search term a record is kept exactly when at least one of its names is not `null`. */
  lemma EmptyTermKeepsNamed(plantHistory: seq<PlantAnalysis>)
    ensures forall p :: p in FilteredHistory(plantHistory, "") <==>
      p in plantHistory && (p.commonName.Some? || p.scientificName.Some?)
  {
    assert ToLowerCase("") == "";
    forall p | p in plantHistory && (p.commonName.Some? || p.scientificName.Some?)
      ensures Matches(p, "")
    {
      if p.commonName.Some? {
        IncludesEmpty(ToLowerCase(p.commonName.value));
      } else {
        IncludesEmpty(ToLowerCase(p.scientificName.value));
      }
    }
  }

  /** `getHealthStatusColor(status)`: `status?.toLowerCase()` falls to the default on `undefined`. */
  function HistoryStatusColor(status: Option<string>): (r: string)
    ensures status.Some? ==> r == PlantAnalysisView.StatusColor(status.value)
    ensures status.None? ==> r == PlantAnalysisView.ToneClasses(PlantAnalysisView.Destructive)
  {
    if status.None? then "bg-destructive/10 text-destructive"
    else
      var key := ToLowerCase(status.value);
      if key == "healthy" then "bg-success/10 text-success"
      else if key == "issues detected" then "bg-warning/10 text-warning"
      else "bg-destructive/10 text-destructive"
  }

  /**
   * With the `|| 'unknown'` at the call site, a history card shows a record's
   * status in the tone the analysis view gives it; a missing or empty status
   * shows as destructive.
   */
  lemma HistoryColorAgrees(healthStatus: Option<string>)
    ensures healthStatus.None? || healthStatus == Some("") ==>
      HistoryStatusColor(Some(PlantAnalysisView.BadgeStatus(healthStatus))) == PlantAnalysisView.ToneClasses(PlantAnalysisView.Destructive)
    ensures HistoryStatusColor(Some(PlantAnalysisView.BadgeStatus(healthStatus)))
         == PlantAnalysisView.ToneClasses(PlantAnalysisView.StatusTone(PlantAnalysisView.BadgeStatus(healthStatus)))
  {
    PlantAnalysisView.StatusMapping(PlantAnalysisView.BadgeStatus(healthStatus), "");
    PlantAnalysisView.ServerStatusTones();
  }
}
