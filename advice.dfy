/** The optimisation recommendations: two independent threshold rules checked on every
    filtered record in order, and the "all services are operating efficiently" outcome
    shown when neither rule fires anywhere. */
module Advice {
  import opened Records

  /** A record whose CPU utilisation is below this fraction is underutilised. */
  const UNDERUTILIZED_BELOW: real := 0.3
  /** A record whose daily cost is above this amount raises a high-cost alert. */
  const HIGH_COST_ABOVE: real := 200.0

  /** A recommendation, before it is formatted as text. */
  datatype Recommendation =
    | Underutilized(service: string, project: string)
    | HighCost(service: string, project: string, cost: real)

  /** What the recommendations panel shows: either the list, or the single efficiency message. */
  datatype Outcome =
    | AllEfficient
    | Advise(items: seq<Recommendation>)

  predicate IsUnderutilized(r: Record) {
    r.cpuUtilization < UNDERUTILIZED_BELOW
  }

  predicate IsHighCost(r: Record) {
    r.cost > HIGH_COST_ABOVE
  }

  /** The messages one record emits: the underutilisation message if it is
      underutilised, then the high-cost alert if it is costly. */
  function RecordRecommendations(r: Record): (out: seq<Recommendation>)
    ensures |out| == (if IsUnderutilized(r) then 1 else 0) + (if IsHighCost(r) then 1 else 0)
    ensures out == [] <==> !IsUnderutilized(r) && !IsHighCost(r)
    ensures IsUnderutilized(r) ==> out[0] == Underutilized(r.service, r.project)
    ensures IsHighCost(r) ==> out[|out| - 1] == HighCost(r.service, r.project, r.cost)
  {
    (if IsUnderutilized(r) then [Underutilized(r.service, r.project)] else []) +
    (if IsHighCost(r) then [HighCost(r.service, r.project, r.cost)] else [])
  }

  /** Specification of the recommendation loop: each record's messages, in record order.
      There is one message per underutilised record plus one per costly record. */
  function Recommendations(rs: seq<Record>): (out: seq<Recommendation>)
    ensures |out| == CountUnderutilized(rs) + CountHighCost(rs)
  {
    if rs == [] then [] else RecordRecommendations(rs[0]) + Recommendations(rs[1..])
  }

  lemma {:induction false} RecommendationsAppend(a: seq<Record>, b: seq<Record>)
    ensures Recommendations(a + b) == Recommendations(a) + Recommendations(b)
  {
    if a == [] {
      assert a + b == b;
    } else {
      assert (a + b)[0] == a[0] && (a + b)[1..] == a[1..] + b;
      RecommendationsAppend(a[1..], b);
    }
  }

  /** The list follows record order: the messages of record i come after those of
      every earlier record and before those of every later one. */
  lemma RecommendationsInRecordOrder(rs: seq<Record>, i: nat)
    requires i < |rs|
    ensures Recommendations(rs)
         == Recommendations(rs[..i]) + RecordRecommendations(rs[i]) + Recommendations(rs[i + 1..])
  {
    assert rs == rs[..i] + rs[i..];
    RecommendationsAppend(rs[..i], rs[i..]);
    assert rs[i..][1..] == rs[i + 1..];
  }

  /** The `for _, row in filtered_df.iterrows()` loop that appends to `recommendations`. */
  method BuildRecommendations(rows: seq<Record>) returns (recommendations: seq<Recommendation>)
    ensures recommendations == Recommendations(rows)
  {
    recommendations := [];
    var i := 0;
    while i < |rows|
      invariant 0 <= i <= |rows|
      invariant recommendations == Recommendations(rows[..i])
    {
      var row := rows[i];
      if row.cpuUtilization < UNDERUTILIZED_BELOW {
        recommendations := recommendations + [Underutilized(row.service, row.project)];
      }
      if row.cost > HIGH_COST_ABOVE {
        recommendations := recommendations + [HighCost(row.service, row.project, row.cost)];
      }
      assert rows[..i + 1] == rows[..i] + [row];
      RecommendationsAppend(rows[..i], [row]);
      i := i + 1;
    }
    assert rows[..i] == rows;
  }

  function CountUnderutilized(rs: seq<Record>): nat {
    if rs == [] then 0 else (if IsUnderutilized(rs[0]) then 1 else 0) + CountUnderutilized(rs[1..])
  }

  function CountHighCost(rs: seq<Record>): nat {
    if rs == [] then 0 else (if IsHighCost(rs[0]) then 1 else 0) + CountHighCost(rs[1..])
  }

  /** An underutilisation message naming a service and project is emitted exactly when
      some record of that service and project is underutilised. */
  lemma {:induction false} UnderutilizedIff(rs: seq<Record>, service: string, project: string)
    ensures Underutilized(service, project) in Recommendations(rs)
        <==> exists r :: r in rs && IsUnderutilized(r) && r.service == service && r.project == project
  {
    if rs != [] {
      UnderutilizedIff(rs[1..], service, project);
      assert rs == [rs[0]] + rs[1..];
    }
  }

  /** A high-cost alert naming a service, project and cost is emitted exactly when some
      record of that service and project has that cost and it exceeds the threshold. */
  lemma {:induction false} HighCostIff(rs: seq<Record>, service: string, project: string, cost: real)
    ensures HighCost(service, project, cost) in Recommendations(rs)
        <==> exists r :: r in rs && IsHighCost(r) && r.service == service && r.project == project && r.cost == cost
  {
    if rs != [] {
      HighCostIff(rs[1..], service, project, cost);
      assert rs == [rs[0]] + rs[1..];
    }
  }

  /** The `if recommendations: ... else: st.success(...)` branch. */
  function Conclude(recommendations: seq<Recommendation>): (outcome: Outcome)
    ensures outcome == AllEfficient <==> recommendations == []
    ensures outcome.Advise? ==> outcome.items == recommendations && outcome.items != []
  {
    if recommendations != [] then Advise(recommendations) else AllEfficient
  }

  /** The efficiency message is shown exactly when no record is underutilised and no
      record is costly; otherwise the list, never empty, is shown instead. */
  lemma {:induction false} EfficientIff(rs: seq<Record>)
    ensures Conclude(Recommendations(rs)) == AllEfficient
        <==> forall r :: r in rs ==> !IsUnderutilized(r) && !IsHighCost(r)
  {
    if rs != [] {
      EfficientIff(rs[1..]);
      assert rs == [rs[0]] + rs[1..];
    }
  }
}
