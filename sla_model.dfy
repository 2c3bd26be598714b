/** The SLA model's deterministic parts: its own allowance table, the breach-time
    projection, and the labelling of synthetic training samples. Each random draw of the
    generator is a parameter within the range the draw covers; `random.uniform(a, b)` with a
    draw `u` in [0, 1] is `a + (b - a) * u`. Times are real hours. */
module SlaModel {
  import opened Common
  import SlaRisk

  /** The SLA allowance per priority value, in hours. */
  const SlaDefinitions: map<string, int> := map["Critical" := 4, "High" := 8, "Medium" := 24, "Low" := 48]

  /** The risk endpoint reads the same table. */
  lemma SameTableAsRiskEndpoint()
    ensures SlaDefinitions == SlaRisk.SlaDefinitions
  {
  }

  /** The allowance for a priority value, 48 hours for a value not in the table. */
  function BaseSlaHours(priority: string): (h: int)
    ensures h > 0
    ensures priority in SlaDefinitions ==> h == SlaDefinitions[priority]
    ensures priority !in SlaDefinitions ==> h == 48
  {
    if priority in SlaDefinitions then SlaDefinitions[priority] else 48
  }

  /** No breach time once the allowance is used up; otherwise the moment it will be. */
  function PredictBreachTime(priority: string, openTimeHours: real, now: real): (r: Option<real>)
    ensures r.None? <==> openTimeHours >= BaseSlaHours(priority) as real
    ensures r.Some? ==> r.value > now
    ensures r.Some? ==> r.value - now == BaseSlaHours(priority) as real - openTimeHours
  {
    var baseSla := BaseSlaHours(priority);
    if openTimeHours >= baseSla as real then None
    else Some(now + (baseSla as real - openTimeHours))
  }

  /** Both projections give the same answer for a priority of the enumeration. */
  lemma ProjectionsAgree(p: SlaRisk.TicketSchema.Priority, openTimeHours: real, now: real)
    ensures PredictBreachTime(SlaRisk.TicketSchema.PriorityValue(p), openTimeHours, now)
            == SlaRisk.PredictedBreachTime(openTimeHours, SlaRisk.SlaHours(SlaRisk.TicketSchema.PriorityValue(p)), now)
  {
    var v := SlaRisk.TicketSchema.PriorityValue(p);
    SlaRisk.EveryPriorityHasAllowance(p);
    assert BaseSlaHours(v) == SlaRisk.SlaHours(v);
  }

  // ---------------------------------------------------------------------------
  // Synthetic samples

  const Priorities: seq<string> := ["Low", "Medium", "High", "Critical"]
  const Categories: seq<string> := ["IT Support", "Bug", "Feature Request", "Security", "Network", "Software"]

  /** `random.uniform(lo, hi)` for the draw `u` in [0, 1]. */
  function Uniform(lo: real, hi: real, u: real): real
  {
    lo + (hi - lo) * u
  }

  /** A uniform draw lies between its bounds. */
  lemma UniformBounds(lo: real, hi: real, u: real)
    requires lo <= hi && 0.0 <= u <= 1.0
    ensures lo <= Uniform(lo, hi, u)
    ensures Uniform(lo, hi, u) <= hi
  {
    var w := hi - lo;
    assert 0.0 <= w * u;
    assert w * (1.0 - u) >= 0.0;
    assert w * u + w * (1.0 - u) == w;
    assert Uniform(lo, hi, u) == lo + w * u;
  }

  /** The random draws for one sample: the priority and category positions, the
      `random.random()` value that picks the branch, and the uniform draw in that branch. */
  datatype SampleDraw = SampleDraw(priorityIndex: nat, categoryIndex: nat, branch: real, u: real)

  predicate ValidDraw(d: SampleDraw)
  {
    d.priorityIndex < |Priorities| && d.categoryIndex < |Categories|
    && 0.0 <= d.branch < 1.0 && 0.0 <= d.u <= 1.0
  }

  datatype Sample = Sample(
    priority: string,
    category: string,
    openTimeHours: real,
    breached: int,
    baseSlaHours: int)

  /** The open time of a sample: 30% of the draws fall near or past the allowance, the rest
      well within it. */
  function OpenTimeHours(baseSla: int, branch: real, u: real): (x: real)
    requires baseSla > 0 && 0.0 <= u <= 1.0
    ensures branch < 0.3 ==> 0.7 * baseSla as real <= x <= 1.5 * baseSla as real
    ensures branch >= 0.3 ==> 0.1 <= x <= 0.8 * baseSla as real
  {
    if branch < 0.3 then
      UniformBounds(baseSla as real * 0.7, baseSla as real * 1.5, u);
      Uniform(baseSla as real * 0.7, baseSla as real * 1.5, u)
    else
      UniformBounds(0.1, baseSla as real * 0.8, u);
      Uniform(0.1, baseSla as real * 0.8, u)
  }

  function MakeSample(d: SampleDraw): (s: Sample)
    requires ValidDraw(d)
    ensures s.priority in SlaDefinitions && s.baseSlaHours == SlaDefinitions[s.priority]
    ensures s.category in Categories
    ensures s.breached == 1 <==> s.openTimeHours >= s.baseSlaHours as real
    ensures s.breached == 0 || s.breached == 1
  {
    var priority := Priorities[d.priorityIndex];
    var category := Categories[d.categoryIndex];
    var baseSla := BaseSlaHours(priority);
    var openTime := OpenTimeHours(baseSla, d.branch, d.u);
    var breached := if openTime >= baseSla as real then 1 else 0;
    Sample(priority, category, openTime, breached, baseSla)
  }

  /** The training label and the projection agree: a sample is labelled breached exactly
      when no breach time would be projected for it. */
  lemma LabelMatchesProjection(d: SampleDraw, now: real)
    requires ValidDraw(d)
    ensures MakeSample(d).breached == 1 <==>
              PredictBreachTime(MakeSample(d).priority, MakeSample(d).openTimeHours, now).None?
  {
  }

  /** A sample from the "well within" branch is never labelled breached. */
  lemma WithinBranchNotBreached(d: SampleDraw)
    requires ValidDraw(d) && d.branch >= 0.3
    ensures MakeSample(d).breached == 0
  {
    var s := MakeSample(d);
    assert s.openTimeHours <= 0.8 * s.baseSlaHours as real;
  }

  /** Generates one sample per draw, in order. */
  method GenerateSyntheticData(draws: seq<SampleDraw>) returns (data: seq<Sample>)
    requires forall k :: 0 <= k < |draws| ==> ValidDraw(draws[k])
    ensures |data| == |draws|
    ensures forall k :: 0 <= k < |data| ==> data[k] == MakeSample(draws[k])
    ensures forall k :: 0 <= k < |data| ==>
              data[k].priority in SlaDefinitions && data[k].baseSlaHours == SlaDefinitions[data[k].priority]
    ensures forall k :: 0 <= k < |data| ==> (data[k].breached == 1 <==> data[k].openTimeHours >= data[k].baseSlaHours as real)
  {
    data := [];
    var i := 0;
    while i < |draws|
      invariant 0 <= i <= |draws|
      invariant |data| == i
      invariant forall k :: 0 <= k < i ==> data[k] == MakeSample(draws[k])
    {
      var d := draws[i];
      var priority := Priorities[d.priorityIndex];
      var category := Categories[d.categoryIndex];
      var baseSla := BaseSlaHours(priority);
      var openTime: real;
      if d.branch < 0.3 {
        openTime := Uniform(baseSla as real * 0.7, baseSla as real * 1.5, d.u);
      } else {
        openTime := Uniform(0.1, baseSla as real * 0.8, d.u);
      }
      var breached := if openTime >= baseSla as real then 1 else 0;
      data := data + [Sample(priority, category, openTime, breached, baseSla)];
      i := i + 1;
    }
  }
}
