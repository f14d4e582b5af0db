/**
 * The pre-processing step of the dashboard summary flow: guards are counted
 * per status and the counts are added to the input handed to the prompt.
 * The prompt call itself (a language model) is not part of this model.
 */
module DashboardSummary {
  import opened Wrappers
  import opened GrievanceService

  datatype GuardStatus = Active | Alert | Standby

  datatype Guard = Guard(id: string, name: string, sector: string, status: GuardStatus, phone: string)

  datatype AlertLevel = Critical | Warning | Normal | Predicted

  /** `current_count` is a JavaScript number, modelled as an integer. */
  datatype FeedAlert = FeedAlert(
    feedId: string, feedName: string, level: AlertLevel, currentCount: int,
    timestamp: string, recommendations: Option<string>)

  datatype SubmittedAt = SubmittedAt(seconds: int, nanoseconds: int)

  datatype Grievance = Grievance(
    id: string, kind: GrievanceType, details: string, submittedAt: SubmittedAt,
    status: GrievanceStatus, submittedBy: Option<string>)

  datatype SummaryInput = SummaryInput(guards: seq<Guard>, alerts: seq<FeedAlert>, grievances: seq<Grievance>)

  /** The input schema extended with the three guard counts. */
  datatype PromptInput = PromptInput(
    guards: seq<Guard>, alerts: seq<FeedAlert>, grievances: seq<Grievance>,
    activeGuards: nat, standbyGuards: nat, alertGuards: nat)

  /** `guards.filter(g => g.status === s)`: the guards of status `s`, in order. */
  function FilterStatus(guards: seq<Guard>, s: GuardStatus): (r: seq<Guard>)
    ensures |r| <= |guards|
    ensures forall i :: 0 <= i < |r| ==> r[i].status == s
  {
    if guards == [] then []
    else (if guards[0].status == s then [guards[0]] else []) + FilterStatus(guards[1..], s)
  }

  function CountStatus(guards: seq<Guard>, s: GuardStatus): nat
  {
    |FilterStatus(guards, s)|
  }

  /** Filtering a roster that starts with `g`: `g` is kept exactly when it has status `s`. */
  lemma FilterCons(g: Guard, rest: seq<Guard>, s: GuardStatus)
    ensures multiset(FilterStatus([g] + rest, s))
            == (if g.status == s then multiset{g} else multiset{}) + multiset(FilterStatus(rest, s))
  {
    assert ([g] + rest)[1..] == rest;
  }

  /** The three filters split the roster: every guard lands in exactly the
      one filtered list of its own status. */
  lemma {:induction false} FiltersPartition(guards: seq<Guard>)
    ensures multiset(FilterStatus(guards, Active)) + multiset(FilterStatus(guards, Standby))
            + multiset(FilterStatus(guards, Alert)) == multiset(guards)
  {
    if guards != [] {
      var g, rest := guards[0], guards[1..];
      assert guards == [g] + rest;
      FiltersPartition(rest);
      FilterCons(g, rest, Active);
      FilterCons(g, rest, Standby);
      FilterCons(g, rest, Alert);
      assert multiset(guards) == multiset{g} + multiset(rest);
    }
  }

  /** Because a status is one of exactly three values, the counts add up to the roster size. */
  lemma CountsPartition(guards: seq<Guard>)
    ensures CountStatus(guards, Active) + CountStatus(guards, Standby) + CountStatus(guards, Alert) == |guards|
  {
    FiltersPartition(guards);
    assert |multiset(guards)| == |guards|;
  }

  /** The number of guards of status `s` counted by position, independently of the filter. */
  function CountAt(guards: seq<Guard>, s: GuardStatus): nat
  {
    |set i | 0 <= i < |guards| && guards[i].status == s|
  }

  /** The filtered list of status `s` has one guard taken from `guards + [g]` in
      addition exactly when `g` has status `s`. */
  lemma {:induction false} FilterAppend(guards: seq<Guard>, g: Guard, s: GuardStatus)
    ensures FilterStatus(guards + [g], s) == FilterStatus(guards, s) + (if g.status == s then [g] else [])
  {
    if guards == [] {
      assert [] + [g] == [g];
      assert [g][1..] == [];
    } else {
      var h := guards[0];
      var keep := if h.status == s then [h] else [];
      assert (guards + [g])[0] == h;
      assert (guards + [g])[1..] == guards[1..] + [g];
      FilterAppend(guards[1..], g, s);
      assert FilterStatus(guards + [g], s) == keep + FilterStatus(guards[1..] + [g], s);
      assert FilterStatus(guards, s) == keep + FilterStatus(guards[1..], s);
    }
  }

  /** Appending one guard of status `s` raises the count for `s` by one and
      leaves the other two counts as they were. */
  lemma AppendGuardCounts(guards: seq<Guard>, g: Guard)
    ensures CountStatus(guards + [g], g.status) == CountStatus(guards, g.status) + 1
    ensures forall s :: s != g.status ==> CountStatus(guards + [g], s) == CountStatus(guards, s)
  {
    FilterAppend(guards, g, g.status);
    forall s | s != g.status
      ensures CountStatus(guards + [g], s) == CountStatus(guards, s)
    {
      FilterAppend(guards, g, s);
    }
  }

  lemma CountAtAppend(guards: seq<Guard>, g: Guard, s: GuardStatus)
    ensures CountAt(guards + [g], s) == CountAt(guards, s) + (if g.status == s then 1 else 0)
  {
    var n := |guards|;
    var before := set i | 0 <= i < n && guards[i].status == s;
    var after := set i | 0 <= i < n + 1 && (guards + [g])[i].status == s;
    assert n !in before;
    if g.status == s {
      assert after == before + {n};
    } else {
      assert after == before;
    }
  }

  /** `filter(...).length` is the number of positions holding a guard of status `s`. */
  lemma {:induction false} CountIsPositions(guards: seq<Guard>, s: GuardStatus)
    ensures CountStatus(guards, s) == CountAt(guards, s)
    decreases |guards|
  {
    if guards != [] {
      var init, last := guards[..|guards| - 1], guards[|guards| - 1];
      assert guards == init + [last];
      CountIsPositions(init, s);
      FilterAppend(init, last, s);
      CountAtAppend(init, last, s);
    }
  }

  /** `{ ...input, activeGuards, standbyGuards, alertGuards }` as the flow builds it. */
  function PromptInputOf(input: SummaryInput): (p: PromptInput)
    ensures p.guards == input.guards && p.alerts == input.alerts && p.grievances == input.grievances
    ensures p.activeGuards == CountAt(input.guards, Active)
    ensures p.standbyGuards == CountAt(input.guards, Standby)
    ensures p.alertGuards == CountAt(input.guards, Alert)
    ensures p.activeGuards + p.standbyGuards + p.alertGuards == |input.guards|
    ensures p.activeGuards <= |input.guards| && p.standbyGuards <= |input.guards| && p.alertGuards <= |input.guards|
    ensures input.guards == [] ==> p.activeGuards == p.standbyGuards == p.alertGuards == 0
  {
    CountsPartition(input.guards);
    CountIsPositions(input.guards, Active);
    CountIsPositions(input.guards, Standby);
    CountIsPositions(input.guards, Alert);
    PromptInput(
      input.guards, input.alerts, input.grievances,
      CountStatus(input.guards, Active),
      CountStatus(input.guards, Standby),
      CountStatus(input.guards, Alert))
  }
}
