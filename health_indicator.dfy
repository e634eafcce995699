/** The system health panel (frontend/src/components/ui/SystemHealthIndicator.jsx): the
    band of the health score and the three issue counters, taken from the `issues` prop,
    derived from reliability data, or fixed. */
module HealthIndicator {
  import opened Wrappers
  import opened Seqs

  const DefaultHealthScore: real := 85.0

  datatype HealthStatus = HealthStatus(title: string, color: string, bgColor: string)

  /** `getHealthStatus`: 80 and above "Excelente", from 60 "Bueno", otherwise "Crítico". */
  function HealthStatusOf(score: real): (s: HealthStatus)
    ensures s.title == "Excelente" <==> score >= 80.0
    ensures s.title == "Bueno" <==> 60.0 <= score < 80.0
    ensures s.title == "Crítico" <==> score < 60.0
  {
    if score >= 80.0 then HealthStatus("Excelente", "text-success", "bg-success")
    else if score >= 60.0 then HealthStatus("Bueno", "text-warning", "bg-warning")
    else HealthStatus("Crítico", "text-error", "bg-error")
  }

  /** The default score is in the top band. */
  lemma DefaultScoreExcellent()
    ensures HealthStatusOf(DefaultHealthScore).title == "Excelente"
  {
  }

  datatype Issue = Issue(kind: string, count: nat, title: string)

  datatype ReliabilityValve = ReliabilityValve(nivel: string, score: real)

  /** The `reliabilityData` prop; `valves` may be missing. */
  datatype ReliabilityData = ReliabilityData(valves: Option<seq<ReliabilityValve>>)

  predicate IsAlta(v: ReliabilityValve) { v.nivel == "ALTA" }
  predicate IsMediaAlta(v: ReliabilityValve) { v.nivel == "MEDIA-ALTA" }
  predicate IsLowScore(v: ReliabilityValve) { v.score < 70.0 }

  const FixedIssues: seq<Issue> := [
    Issue("success", 42, "Válvulas operando normalmente"),
    Issue("warning", 3, "Válvulas requieren monitoreo"),
    Issue("error", 2, "Válvulas en estado crítico")
  ]

  /** `displayIssues`: a non-empty `issues` prop as given; else counts over the reliability
      valves (any array, even empty); else the fixed counters. */
  function DisplayIssues(issues: seq<Issue>, reliability: Option<ReliabilityData>): (r: seq<Issue>)
    ensures |issues| > 0 ==> r == issues
    ensures |issues| == 0 && (reliability.None? || reliability.value.valves.None?) ==> r == FixedIssues
    ensures |issues| == 0 && reliability.Some? && reliability.value.valves.Some? ==>
      var vs := reliability.value.valves.value;
      |r| == 3 && r[0].count == Count(vs, IsAlta) && r[1].count == Count(vs, IsMediaAlta)
      && r[2].count == Count(vs, IsLowScore)
  {
    if |issues| > 0 then issues
    else if reliability.Some? && reliability.value.valves.Some? then
      var vs := reliability.value.valves.value;
      [Issue("success", Count(vs, IsAlta), "Válvulas operando normalmente"),
       Issue("warning", Count(vs, IsMediaAlta), "Válvulas requieren monitoreo"),
       Issue("error", Count(vs, IsLowScore), "Válvulas en estado crítico")]
    else FixedIssues
  }

  /** A valve is counted at most once between "operating normally" and "needs monitoring";
      the critical counter may overlap either. */
  lemma DerivedCountsBounded(vs: seq<ReliabilityValve>)
    ensures Count(vs, IsAlta) + Count(vs, IsMediaAlta) <= |vs|
    ensures Count(vs, IsLowScore) <= |vs|
  {
    CountDisjoint(vs, IsAlta, IsMediaAlta);
  }

  /** One valve with level "ALTA" and a score of 50 is in both the success and the error
      counter. */
  lemma CriticalCounterOverlaps()
    ensures var vs := [ReliabilityValve("ALTA", 50.0)];
      Count(vs, IsAlta) == 1 && Count(vs, IsLowScore) == 1
  {
    var vs := [ReliabilityValve("ALTA", 50.0)];
    CountCons(vs, IsAlta);
    CountCons(vs, IsLowScore);
  }
}
