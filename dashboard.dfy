/** The dashboard script as a whole, without its widgets: filter the billing records by
    the two selectors, summarise them, pivot the daily cost per service, and decide what
    the recommendations panel shows. */
module Dashboard {
  import opened Records
  import opened Filter
  import opened Aggregates
  import opened Advice

  datatype Option<T> = None | Some(value: T)

  /** Everything the page displays, as values. `averageCpu` is `None` where pandas
      yields NaN, the mean of an empty selection. `outcome` is `None` when the script
      stops before the recommendations panel: an empty selection gives an empty pivot,
      and plotting an empty pivot raises. */
  datatype View = View(
    filtered: seq<Record>,
    totalSpend: real,
    averageCpu: Option<real>,
    dailyCostPerService: map<GroupKey, real>,
    outcome: Option<Outcome>)

  method Render(rs: seq<Record>, selectedProject: string, selectedProvider: string) returns (view: View)
    ensures view.filtered == FilterRecords(rs, selectedProject, selectedProvider)
    ensures view.totalSpend == TotalSpend(view.filtered)
    ensures view.averageCpu.Some? <==> view.filtered != []
    ensures view.averageCpu.Some? ==> view.averageCpu.value == MeanCpu(view.filtered)
    ensures view.dailyCostPerService.Keys == GroupKeys(view.filtered)
    ensures forall k :: k in view.dailyCostPerService ==> view.dailyCostPerService[k] == GroupCost(view.filtered, k)
    ensures view.outcome.None? <==> view.filtered == []
    ensures view.outcome == Some(AllEfficient)
        <==> view.filtered != [] &&
             forall x :: x in rs && Matches(x, selectedProject, selectedProvider) ==> !IsUnderutilized(x) && !IsHighCost(x)
    ensures view.outcome.Some? && view.outcome.value.Advise? ==> view.outcome.value.items == Recommendations(view.filtered)
  {
    var filtered := FilterRecords(rs, selectedProject, selectedProvider);
    var average := if filtered != [] then Some(MeanCpu(filtered)) else None;
    PivotCells(filtered);
    var outcome := None;
    if filtered != [] {
      var recommendations := BuildRecommendations(filtered);
      EfficientIff(filtered);
      outcome := Some(Conclude(recommendations));
    }
    view := View(filtered, TotalSpend(filtered), average, Pivot(filtered), outcome);
  }
}
