/** The assignment engine: the roster and fleet filters, the pilot cost
    calculator, mission matching and urgent reassignment. The sheets arrive as
    sequences of records in sheet order; dates are day numbers. */
module AssignmentEngine {
  import opened Text
  import opened Tables
  import opened ConflictEngine

  // ---------------------------------------------------------------------------
  // Records
  // ---------------------------------------------------------------------------

  /** A row of the pilot roster. `currentAssignment` is "-" when free. */
  datatype Pilot = Pilot(
    pilotId: string, name: string, skills: string, certifications: string,
    location: string, status: string, currentAssignment: string, dailyRate: int)

  /** A row of the drone fleet. `maintenanceDue` is a day number. */
  datatype Drone = Drone(
    droneId: string, capabilities: string, weatherResistance: string,
    location: string, status: string, currentAssignment: string, maintenanceDue: int)

  /** A row of the missions sheet. */
  datatype Mission = Mission(
    projectId: string, location: string, requiredSkills: string, requiredCerts: string,
    startDate: int, endDate: int, priority: string, budget: int, weatherForecast: string)

  /** An entry of `eligible_pilots`. */
  datatype Candidate = Candidate(pilotId: string, name: string, estimatedCost: int)

  /** What `assign_mission` returns for a mission it found. */
  datatype Assignment = Assignment(
    mission: string,
    eligiblePilots: seq<Candidate>, eligibleDrones: seq<string>,
    pilotWarnings: seq<string>, droneWarnings: seq<string>)

  /** The replies of `assign_mission` and `urgent_reassignment`:
      `{"status": "Error", "message": ...}`, a bare `{"message": ...}`, or an
      assignment. */
  datatype Reply = Error(message: string) | Message(text: string) | Assigned(assignment: Assignment)

  const Available := "Available"
  const Unassigned := "-"
  const MissionNotFound := "Mission not found"
  const NotHighPriority := "Mission is not high priority"
  const NoDirectPilot := "No direct pilot available. Suggest reassigning from lower priority mission."

  // ---------------------------------------------------------------------------
  // Roster and fleet filters
  // ---------------------------------------------------------------------------

  predicate PilotAvailable(p: Pilot) {
    p.status == Available
  }

  /** The conditions `get_available_pilots` applies; an empty filter is absent. */
  predicate PilotListed(p: Pilot, skill: string, location: string) {
    && p.status == Available
    && (skill == "" || ContainsIgnoringCase(p.skills, skill))
    && (location == "" || p.location == location)
  }

  /** `get_available_pilots`: the available pilots, narrowed by skill
      (case-insensitive substring) and location when those are given. */
  function GetAvailablePilots(roster: seq<Pilot>, skill: string, location: string): (r: seq<Pilot>)
    ensures forall p :: multiset(r)[p] == if PilotListed(p, skill, location) then multiset(roster)[p] else 0
    ensures IsSubseq(r, roster)
  {
    var available := Filter(roster, PilotAvailable);
    var bySkill := Narrow(available, skill != "", (p: Pilot) => ContainsIgnoringCase(p.skills, skill));
    var byLocation := Narrow(bySkill, location != "", (p: Pilot) => p.location == location);
    SubseqTransitive(bySkill, available, roster);
    SubseqTransitive(byLocation, bySkill, roster);
    byLocation
  }

  predicate DroneAvailable(d: Drone) {
    d.status == Available
  }

  /** The drone is not past its maintenance date on `today`. */
  function MaintainedOn(today: int): Drone -> bool {
    (d: Drone) => d.maintenanceDue >= today
  }

  /** The conditions `get_available_drones` applies; an empty filter is absent. */
  predicate DroneListed(d: Drone, today: int, capability: string, location: string, weather: string) {
    && d.status == Available
    && d.maintenanceDue >= today
    && (capability == "" || ContainsIgnoringCase(d.capabilities, capability))
    && (location == "" || d.location == location)
    && (weather == "" || !WeatherConflict(d.weatherResistance, weather))
  }

  /** `get_available_drones`: available drones not past maintenance, narrowed
      by capability, location and weather when those are given. */
  function GetAvailableDrones(fleet: seq<Drone>, today: int, capability: string, location: string,
                              weather: string): (r: seq<Drone>)
    ensures forall d :: multiset(r)[d] ==
              if DroneListed(d, today, capability, location, weather) then multiset(fleet)[d] else 0
    ensures IsSubseq(r, fleet)
  {
    var available := Filter(fleet, DroneAvailable);
    var maintained := Filter(available, MaintainedOn(today));
    var capable := Narrow(maintained, capability != "",
                          (d: Drone) => ContainsIgnoringCase(d.capabilities, capability));
    var located := Narrow(capable, location != "", (d: Drone) => d.location == location);
    var weatherproof := Narrow(located, weather != "",
                               (d: Drone) => !WeatherConflict(d.weatherResistance, weather));
    SubseqTransitive(maintained, available, fleet);
    SubseqTransitive(capable, maintained, fleet);
    SubseqTransitive(located, capable, fleet);
    SubseqTransitive(weatherproof, located, fleet);
    weatherproof
  }

  /** The listed pilots are exactly the roster's pilots that meet every given filter. */
  lemma ListedPilots(roster: seq<Pilot>, skill: string, location: string)
    ensures forall k :: 0 <= k < |GetAvailablePilots(roster, skill, location)| ==>
              PilotListed(GetAvailablePilots(roster, skill, location)[k], skill, location)
    ensures forall k :: 0 <= k < |roster| && PilotListed(roster[k], skill, location) ==>
              roster[k] in GetAvailablePilots(roster, skill, location)
  {
    var r := GetAvailablePilots(roster, skill, location);
    forall k | 0 <= k < |r|
      ensures PilotListed(r[k], skill, location)
    {
      assert multiset(r)[r[k]] > 0;
    }
    forall k | 0 <= k < |roster| && PilotListed(roster[k], skill, location)
      ensures roster[k] in r
    {
      assert multiset(roster)[roster[k]] > 0;
    }
  }

  /** Without a skill or a location, every available pilot is listed, in roster order. */
  lemma UnfilteredPilots(roster: seq<Pilot>)
    ensures GetAvailablePilots(roster, "", "") == Filter(roster, PilotAvailable)
  {
  }

  /** The listed drones are exactly the fleet's drones that meet every given filter. */
  lemma ListedDrones(fleet: seq<Drone>, today: int, capability: string, location: string, weather: string)
    ensures forall k :: 0 <= k < |GetAvailableDrones(fleet, today, capability, location, weather)| ==>
              DroneListed(GetAvailableDrones(fleet, today, capability, location, weather)[k],
                          today, capability, location, weather)
    ensures forall k :: 0 <= k < |fleet| && DroneListed(fleet[k], today, capability, location, weather) ==>
              fleet[k] in GetAvailableDrones(fleet, today, capability, location, weather)
  {
    var r := GetAvailableDrones(fleet, today, capability, location, weather);
    forall k | 0 <= k < |r|
      ensures DroneListed(r[k], today, capability, location, weather)
    {
      assert multiset(r)[r[k]] > 0;
    }
    forall k | 0 <= k < |fleet| && DroneListed(fleet[k], today, capability, location, weather)
      ensures fleet[k] in r
    {
      assert multiset(fleet)[fleet[k]] > 0;
    }
  }

  /** Without the optional filters, the available drones not past maintenance
      are listed, in fleet order. */
  lemma UnfilteredDrones(fleet: seq<Drone>, today: int)
    ensures GetAvailableDrones(fleet, today, "", "", "") == Filter(Filter(fleet, DroneAvailable), MaintainedOn(today))
  {
  }

  // ---------------------------------------------------------------------------
  // Cost calculator
  // ---------------------------------------------------------------------------

  /** A date argument after parsing: a day number, or the parser's complaint. */
  datatype DateInput = Date(day: int) | Unparsable(reason: string)

  /** `{"total_cost": ...}` or `{"error": ...}`. */
  datatype CostReply = TotalCost(total: int) | CostError(error: string)

  function HasName(name: string): Pilot -> bool {
    (p: Pilot) => p.name == name
  }

  ghost predicate Rostered(roster: seq<Pilot>, name: string) {
    exists k :: 0 <= k < |roster| && roster[k].name == name
  }

  /** Pilot `k` is the first one on the roster with its name. */
  ghost predicate FirstNamed(roster: seq<Pilot>, k: int) {
    0 <= k < |roster| && forall j :: 0 <= j < k ==> roster[j].name != roster[k].name
  }

  /** Days from start to end, both included. */
  function Days(startDate: DateInput, endDate: DateInput): int
    requires startDate.Date? && endDate.Date?
  {
    endDate.day - startDate.day + 1
  }

  /** `calculate_pilot_cost`: the first pilot of that name, charged their daily
      rate for every day from start to end inclusive. */
  function CalculatePilotCost(roster: seq<Pilot>, name: string, startDate: DateInput, endDate: DateInput)
    : (r: CostReply)
    ensures !Rostered(roster, name) ==> r == CostError("Pilot not found")
    ensures Rostered(roster, name) && startDate.Unparsable? ==>
              r == CostError("Calculation failed: " + startDate.reason)
    ensures Rostered(roster, name) && startDate.Date? && endDate.Unparsable? ==>
              r == CostError("Calculation failed: " + endDate.reason)
    ensures Rostered(roster, name) && startDate.Date? && endDate.Date? && Days(startDate, endDate) <= 0 ==>
              r == CostError("Invalid date range")
    ensures Rostered(roster, name) && startDate.Date? && endDate.Date? && Days(startDate, endDate) > 0 ==>
              r.TotalCost?
    ensures r.TotalCost? ==> exists k :: FirstNamed(roster, k) && roster[k].name == name &&
                              r.total == roster[k].dailyRate * Days(startDate, endDate)
  {
    var found := FirstIndex(roster, HasName(name));
    if found.None? then
      assert forall k :: 0 <= k < |roster| ==> !HasName(name)(roster[k]);
      CostError("Pilot not found")
    else
      var i := found.value;
      assert roster[i].name == name;
      var costPerDay := roster[i].dailyRate;
      if startDate.Unparsable? then CostError("Calculation failed: " + startDate.reason)
      else if endDate.Unparsable? then CostError("Calculation failed: " + endDate.reason)
      else if Days(startDate, endDate) <= 0 then CostError("Invalid date range")
      else
        assert forall j :: 0 <= j < i ==> !HasName(name)(roster[j]);
        assert FirstNamed(roster, i);
        TotalCost(costPerDay * Days(startDate, endDate))
  }

  // ---------------------------------------------------------------------------
  // Mission matching
  // ---------------------------------------------------------------------------

  /** What the matching rules decide about one pilot or drone: dropped without
      a word, rejected with a warning, or accepted. */
  datatype Verdict<C> = Skip | Warn(warning: string) | Accept(item: C)

  /** The items of the accepted elements of `xs`, in order. */
  function Accepted<T, C>(xs: seq<T>, judge: T -> Verdict<C>): seq<C>
  {
    if xs == [] then []
    else Accepted(xs[..|xs| - 1], judge) +
         match judge(xs[|xs| - 1]) case Accept(c) => [c] case _ => []
  }

  /** The warnings of the rejected elements of `xs`, in order. */
  function Warnings<T, C>(xs: seq<T>, judge: T -> Verdict<C>): seq<string>
  {
    if xs == [] then []
    else Warnings(xs[..|xs| - 1], judge) +
         match judge(xs[|xs| - 1]) case Warn(w) => [w] case _ => []
  }

  /** Inclusive length of a mission in days. */
  function Duration(m: Mission): (r: int)
    ensures r > 0 <==> m.startDate <= m.endDate
    ensures r == Days(Date(m.startDate), Date(m.endDate))
  {
    m.endDate - m.startDate + 1
  }

  function AssignedWarning(p: Pilot): string {
    p.name + " already assigned to " + p.currentAssignment
  }

  function CertificationWarning(p: Pilot): string {
    "Certification mismatch for " + p.name
  }

  function BudgetWarning(p: Pilot): string {
    "Budget overrun risk for " + p.name
  }

  function CandidateFor(p: Pilot, duration: int): Candidate {
    Candidate(p.pilotId, p.name, p.dailyRate * duration)
  }

  /** Every condition an eligible pilot meets. */
  predicate PilotQualifies(p: Pilot, m: Mission, duration: int) {
    && p.status == Available
    && p.location == m.location
    && p.currentAssignment == Unassigned
    && !SkillMismatch(p.skills, m.requiredSkills)
    && !CertificationMismatch(p.certifications, m.requiredCerts)
    && p.dailyRate * duration <= m.budget
  }

  /** The pilot rules of `assign_mission`, first applicable rule deciding. */
  function JudgePilot(p: Pilot, m: Mission, duration: int): (v: Verdict<Candidate>)
    ensures v.Accept? <==> PilotQualifies(p, m, duration)
    ensures v.Accept? ==> v.item == CandidateFor(p, duration)
    ensures v.Skip? <==> || p.status != Available || p.location != m.location
                         || (p.currentAssignment == Unassigned && SkillMismatch(p.skills, m.requiredSkills))
    ensures p.status == Available && p.location == m.location && p.currentAssignment != Unassigned
            ==> v == Warn(AssignedWarning(p))
    ensures p.status == Available && p.location == m.location && p.currentAssignment == Unassigned
            && !SkillMismatch(p.skills, m.requiredSkills)
            && CertificationMismatch(p.certifications, m.requiredCerts)
            ==> v == Warn(CertificationWarning(p))
    ensures p.status == Available && p.location == m.location && p.currentAssignment == Unassigned
            && !SkillMismatch(p.skills, m.requiredSkills)
            && !CertificationMismatch(p.certifications, m.requiredCerts)
            && p.dailyRate * duration > m.budget
            ==> v == Warn(BudgetWarning(p))
  {
    if p.status != Available then Skip
    else if p.location != m.location then Skip
    else if p.currentAssignment != Unassigned then Warn(AssignedWarning(p))
    else if SkillMismatch(p.skills, m.requiredSkills) then Skip
    else if CertificationMismatch(p.certifications, m.requiredCerts) then Warn(CertificationWarning(p))
    else if p.dailyRate * duration > m.budget then Warn(BudgetWarning(p))
    else Accept(CandidateFor(p, duration))
  }

  function PilotRules(m: Mission, duration: int): Pilot -> Verdict<Candidate> {
    (p: Pilot) => JudgePilot(p, m, duration)
  }

  function DeployedWarning(d: Drone): string {
    "Drone " + d.droneId + " already deployed"
  }

  function WeatherWarning(d: Drone): string {
    "Weather risk for drone " + d.droneId
  }

  /** Every condition an eligible drone meets. There is no maintenance test. */
  predicate DroneQualifies(d: Drone, m: Mission) {
    && d.status == Available
    && d.location == m.location
    && d.currentAssignment == Unassigned
    && !WeatherConflict(d.weatherResistance, m.weatherForecast)
  }

  /** The drone rules of `assign_mission`, first applicable rule deciding. */
  function JudgeDrone(d: Drone, m: Mission): (v: Verdict<string>)
    ensures v.Accept? <==> DroneQualifies(d, m)
    ensures v.Accept? ==> v.item == d.droneId
    ensures v.Skip? <==> d.status != Available || d.location != m.location
    ensures d.status == Available && d.location == m.location && d.currentAssignment != Unassigned
            ==> v == Warn(DeployedWarning(d))
    ensures d.status == Available && d.location == m.location && d.currentAssignment == Unassigned
            && WeatherConflict(d.weatherResistance, m.weatherForecast)
            ==> v == Warn(WeatherWarning(d))
  {
    if d.status != Available then Skip
    else if d.location != m.location then Skip
    else if d.currentAssignment != Unassigned then Warn(DeployedWarning(d))
    else if WeatherConflict(d.weatherResistance, m.weatherForecast) then Warn(WeatherWarning(d))
    else Accept(d.droneId)
  }

  function DroneRules(m: Mission): Drone -> Verdict<string> {
    (d: Drone) => JudgeDrone(d, m)
  }

  function MissionNamed(projectId: string): Mission -> bool {
    (m: Mission) => m.projectId == projectId
  }

  /** The assignment `assign_mission` reports for mission `m`. */
  function Matching(pilots: seq<Pilot>, drones: seq<Drone>, m: Mission, projectId: string): (r: Assignment)
    ensures r.mission == projectId
    ensures r.eligiblePilots == Candidates(Filter(pilots, QualifyingPilot(m, Duration(m))), Duration(m))
    ensures r.eligibleDrones == DroneIds(Filter(drones, QualifyingDrone(m)))
  {
    var duration := Duration(m);
    EligiblePilotsAreQualified(pilots, m, duration);
    EligibleDronesAreQualified(drones, m);
    Assignment(projectId,
               Accepted(pilots, PilotRules(m, duration)), Accepted(drones, DroneRules(m)),
               Warnings(pilots, PilotRules(m, duration)), Warnings(drones, DroneRules(m)))
  }

  /** Element `k` adds at most one entry, to the list its verdict names. */
  lemma Contribution<T, C>(xs: seq<T>, judge: T -> Verdict<C>, k: int)
    requires 0 <= k < |xs|
    ensures Accepted(xs[..k + 1], judge) ==
            Accepted(xs[..k], judge) + if judge(xs[k]).Accept? then [judge(xs[k]).item] else []
    ensures Warnings(xs[..k + 1], judge) ==
            Warnings(xs[..k], judge) + if judge(xs[k]).Warn? then [judge(xs[k]).warning] else []
    ensures |Accepted(xs[..k + 1], judge)| + |Warnings(xs[..k + 1], judge)| <=
            |Accepted(xs[..k], judge)| + |Warnings(xs[..k], judge)| + 1
  {
    assert xs[..k + 1][..k] == xs[..k];
  }

  /** Together the two lists are never longer than the input. */
  lemma {:induction false} ListsBounded<T, C>(xs: seq<T>, judge: T -> Verdict<C>)
    ensures |Accepted(xs, judge)| + |Warnings(xs, judge)| <= |xs|
    decreases |xs|
  {
    if xs != [] {
      ListsBounded(xs[..|xs| - 1], judge);
    }
  }

  lemma {:induction false} AcceptedMembers<T, C>(xs: seq<T>, judge: T -> Verdict<C>, c: C)
    ensures c in Accepted(xs, judge) <==> exists k :: 0 <= k < |xs| && judge(xs[k]) == Accept(c)
    decreases |xs|
  {
    if xs != [] {
      var init := xs[..|xs| - 1];
      AcceptedMembers(init, judge, c);
      if k :| 0 <= k < |xs| && judge(xs[k]) == Accept(c) {
        if k < |init| {
          assert judge(init[k]) == Accept(c);
        }
      }
      if k :| 0 <= k < |init| && judge(init[k]) == Accept(c) {
        assert judge(xs[k]) == Accept(c);
      }
    }
  }

  lemma {:induction false} WarningMembers<T, C>(xs: seq<T>, judge: T -> Verdict<C>, w: string)
    ensures w in Warnings(xs, judge) <==> exists k :: 0 <= k < |xs| && judge(xs[k]) == Warn(w)
    decreases |xs|
  {
    if xs != [] {
      var init := xs[..|xs| - 1];
      WarningMembers(init, judge, w);
      if k :| 0 <= k < |xs| && judge(xs[k]) == Warn(w) {
        if k < |init| {
          assert judge(init[k]) == Warn(w);
        }
      }
      if k :| 0 <= k < |init| && judge(init[k]) == Warn(w) {
        assert judge(xs[k]) == Warn(w);
      }
    }
  }

  function QualifyingPilot(m: Mission, duration: int): Pilot -> bool {
    (p: Pilot) => PilotQualifies(p, m, duration)
  }

  function Candidates(ps: seq<Pilot>, duration: int): seq<Candidate> {
    seq(|ps|, k requires 0 <= k < |ps| => CandidateFor(ps[k], duration))
  }

  lemma CandidatesAppend(ps: seq<Pilot>, p: Pilot, duration: int)
    ensures Candidates(ps + [p], duration) == Candidates(ps, duration) + [CandidateFor(p, duration)]
  {
  }

  /** One step of the pilot loop: the last pilot adds its candidate exactly when it qualifies. */
  lemma AcceptedPilotsLast(ps: seq<Pilot>, m: Mission, duration: int)
    requires ps != []
    ensures Accepted(ps, PilotRules(m, duration)) ==
            Accepted(ps[..|ps| - 1], PilotRules(m, duration)) +
            if PilotQualifies(ps[|ps| - 1], m, duration) then [CandidateFor(ps[|ps| - 1], duration)] else []
  {
  }

  /** The eligible pilots are the qualifying pilots, in roster order, each with
      their estimated cost. */
  lemma {:induction false} EligiblePilotsAreQualified(ps: seq<Pilot>, m: Mission, duration: int)
    ensures Accepted(ps, PilotRules(m, duration)) == Candidates(Filter(ps, QualifyingPilot(m, duration)), duration)
    decreases |ps|
  {
    if ps != [] {
      var init, last := ps[..|ps| - 1], ps[|ps| - 1];
      EligiblePilotsAreQualified(init, m, duration);
      var f := Filter(init, QualifyingPilot(m, duration));
      FilterLast(ps, QualifyingPilot(m, duration));
      AcceptedPilotsLast(ps, m, duration);
      if PilotQualifies(last, m, duration) {
        CandidatesAppend(f, last, duration);
      }
    }
  }

  /** A candidate is eligible exactly when it comes from a pilot who passes
      every rule, so its estimated cost is within the budget. */
  lemma EligiblePilotsMeaning(ps: seq<Pilot>, m: Mission, duration: int, c: Candidate)
    ensures c in Accepted(ps, PilotRules(m, duration)) <==>
            exists k :: 0 <= k < |ps| && PilotQualifies(ps[k], m, duration) && c == CandidateFor(ps[k], duration)
    ensures c in Accepted(ps, PilotRules(m, duration)) ==> c.estimatedCost <= m.budget
  {
    AcceptedMembers(ps, PilotRules(m, duration), c);
  }

  /** Each pilot warning names a pilot who is available and at the mission
      location, and says why that pilot was turned down. */
  lemma PilotWarningsExplained(ps: seq<Pilot>, m: Mission, duration: int, w: string)
    requires w in Warnings(ps, PilotRules(m, duration))
    ensures exists k :: && 0 <= k < |ps| && ps[k].status == Available && ps[k].location == m.location
                        && (|| (ps[k].currentAssignment != Unassigned && w == AssignedWarning(ps[k]))
                            || (&& ps[k].currentAssignment == Unassigned
                                && !SkillMismatch(ps[k].skills, m.requiredSkills)
                                && CertificationMismatch(ps[k].certifications, m.requiredCerts)
                                && w == CertificationWarning(ps[k]))
                            || (&& ps[k].currentAssignment == Unassigned
                                && !SkillMismatch(ps[k].skills, m.requiredSkills)
                                && !CertificationMismatch(ps[k].certifications, m.requiredCerts)
                                && ps[k].dailyRate * duration > m.budget
                                && w == BudgetWarning(ps[k])))
  {
    WarningMembers(ps, PilotRules(m, duration), w);
  }

  /** An available, co-located pilot who is already on a mission is reported. */
  lemma AssignedPilotWarned(ps: seq<Pilot>, m: Mission, duration: int, k: int)
    requires 0 <= k < |ps| && ps[k].status == Available && ps[k].location == m.location
    requires ps[k].currentAssignment != Unassigned
    ensures AssignedWarning(ps[k]) in Warnings(ps, PilotRules(m, duration))
  {
    WarningMembers(ps, PilotRules(m, duration), AssignedWarning(ps[k]));
  }

  /** A free, co-located pilot whose skills and certificates are exactly the
      mission's is eligible when the cost fits the budget, and draws the
      budget warning otherwise. */
  lemma ExactMatchPilot(p: Pilot, m: Mission, duration: int)
    requires p.status == Available && p.location == m.location && p.currentAssignment == Unassigned
    requires p.skills == m.requiredSkills && p.certifications == m.requiredCerts
    ensures p.dailyRate * duration <= m.budget ==> JudgePilot(p, m, duration) == Accept(CandidateFor(p, duration))
    ensures p.dailyRate * duration > m.budget ==> JudgePilot(p, m, duration) == Warn(BudgetWarning(p))
  {
    ContainsInfix("", Lower(p.skills), "");
    assert "" + Lower(p.skills) + "" == Lower(p.skills);
    CertificationReflexive(p.certifications);
  }

  /** `assign_mission` never checks the dates: a mission that ends before it
      starts has a non-positive duration, so for non-negative rates and budget
      the budget rule drops out. */
  lemma InvertedDatesSkipBudget(p: Pilot, m: Mission)
    requires m.endDate < m.startDate && p.dailyRate >= 0 && m.budget >= 0
    ensures JudgePilot(p, m, Duration(m)).Accept? <==>
            && p.status == Available && p.location == m.location && p.currentAssignment == Unassigned
            && !SkillMismatch(p.skills, m.requiredSkills)
            && !CertificationMismatch(p.certifications, m.requiredCerts)
  {
    assert p.dailyRate * Duration(m) <= 0;
  }

  function QualifyingDrone(m: Mission): Drone -> bool {
    (d: Drone) => DroneQualifies(d, m)
  }

  function DroneIds(ds: seq<Drone>): seq<string> {
    seq(|ds|, k requires 0 <= k < |ds| => ds[k].droneId)
  }

  lemma DroneIdsAppend(ds: seq<Drone>, d: Drone)
    ensures DroneIds(ds + [d]) == DroneIds(ds) + [d.droneId]
  {
  }

  /** One step of the drone loop: the last drone adds its id exactly when it qualifies. */
  lemma AcceptedDronesLast(ds: seq<Drone>, m: Mission)
    requires ds != []
    ensures Accepted(ds, DroneRules(m)) ==
            Accepted(ds[..|ds| - 1], DroneRules(m)) +
            if DroneQualifies(ds[|ds| - 1], m) then [ds[|ds| - 1].droneId] else []
  {
  }

  /** The eligible drones are the ids of the qualifying drones, in fleet order. */
  lemma {:induction false} EligibleDronesAreQualified(ds: seq<Drone>, m: Mission)
    ensures Accepted(ds, DroneRules(m)) == DroneIds(Filter(ds, QualifyingDrone(m)))
    decreases |ds|
  {
    if ds != [] {
      var init, last := ds[..|ds| - 1], ds[|ds| - 1];
      EligibleDronesAreQualified(init, m);
      var f := Filter(init, QualifyingDrone(m));
      FilterLast(ds, QualifyingDrone(m));
      AcceptedDronesLast(ds, m);
      if DroneQualifies(last, m) {
        DroneIdsAppend(f, last);
      }
    }
  }

  /** Under rain every eligible drone is one whose rating mentions "IP43". */
  lemma RainyMissionDrones(ds: seq<Drone>, m: Mission, id: string)
    requires m.weatherForecast == "Rainy" && id in Accepted(ds, DroneRules(m))
    ensures exists k :: 0 <= k < |ds| && ds[k].droneId == id && DroneQualifies(ds[k], m)
                        && Contains(ds[k].weatherResistance, "IP43")
  {
    AcceptedMembers(ds, DroneRules(m), id);
  }

  /** Each drone warning names an available, co-located drone that is either
      deployed elsewhere or at risk from the weather. */
  lemma DroneWarningsExplained(ds: seq<Drone>, m: Mission, w: string)
    requires w in Warnings(ds, DroneRules(m))
    ensures exists k :: && 0 <= k < |ds| && ds[k].status == Available && ds[k].location == m.location
                        && (|| (ds[k].currentAssignment != Unassigned && w == DeployedWarning(ds[k]))
                            || (&& ds[k].currentAssignment == Unassigned
                                && WeatherConflict(ds[k].weatherResistance, m.weatherForecast)
                                && w == WeatherWarning(ds[k])))
  {
    WarningMembers(ds, DroneRules(m), w);
  }

  /** Matching does not look at maintenance dates. */
  lemma MaintenanceNotChecked(d: Drone, m: Mission, due: int)
    ensures JudgeDrone(d.(maintenanceDue := due), m) == JudgeDrone(d, m)
  {
  }

  /** The cost calculator, asked about the first pilot of a name over a
      mission's dates, charges what matching estimates for that pilot. */
  lemma CostAgreesWithEstimate(roster: seq<Pilot>, k: int, m: Mission)
    requires FirstNamed(roster, k) && Duration(m) > 0
    ensures CalculatePilotCost(roster, roster[k].name, Date(m.startDate), Date(m.endDate)) ==
            TotalCost(CandidateFor(roster[k], Duration(m)).estimatedCost)
  {
    var r := CalculatePilotCost(roster, roster[k].name, Date(m.startDate), Date(m.endDate));
    assert Rostered(roster, roster[k].name);
    var j :| FirstNamed(roster, j) && roster[j].name == roster[k].name &&
             r.total == roster[j].dailyRate * Days(Date(m.startDate), Date(m.endDate));
    assert j == k;
  }

  /** The pilot pass of `assign_mission`: every pilot in roster order, the
      first applicable rule deciding what, if anything, it adds. */
  method MatchPilots(pilots: seq<Pilot>, mission: Mission, duration: int)
    returns (eligiblePilots: seq<Candidate>, pilotWarnings: seq<string>)
    ensures eligiblePilots == Accepted(pilots, PilotRules(mission, duration))
    ensures pilotWarnings == Warnings(pilots, PilotRules(mission, duration))
  {
    ghost var judge := PilotRules(mission, duration);
    eligiblePilots, pilotWarnings := [], [];
    for i := 0 to |pilots|
      invariant eligiblePilots == Accepted(pilots[..i], judge)
      invariant pilotWarnings == Warnings(pilots[..i], judge)
    {
      var pilot := pilots[i];
      Contribution(pilots, judge, i);
      assert judge(pilot) == JudgePilot(pilot, mission, duration);
      if pilot.status != Available {
        continue;
      }
      if pilot.location != mission.location {
        continue;
      }
      if pilot.currentAssignment != Unassigned {
        pilotWarnings := pilotWarnings + [AssignedWarning(pilot)];
        continue;
      }
      if SkillMismatch(pilot.skills, mission.requiredSkills) {
        continue;
      }
      if CertificationMismatch(pilot.certifications, mission.requiredCerts) {
        pilotWarnings := pilotWarnings + [CertificationWarning(pilot)];
        continue;
      }
      var totalCost := pilot.dailyRate * duration;
      if totalCost > mission.budget {
        pilotWarnings := pilotWarnings + [BudgetWarning(pilot)];
        continue;
      }
      eligiblePilots := eligiblePilots + [Candidate(pilot.pilotId, pilot.name, totalCost)];
    }
    assert pilots[..|pilots|] == pilots;
  }

  /** The drone pass of `assign_mission`: every drone in fleet order, the first
      applicable rule deciding what, if anything, it adds. */
  method MatchDrones(drones: seq<Drone>, mission: Mission)
    returns (eligibleDrones: seq<string>, droneWarnings: seq<string>)
    ensures eligibleDrones == Accepted(drones, DroneRules(mission))
    ensures droneWarnings == Warnings(drones, DroneRules(mission))
  {
    ghost var judge := DroneRules(mission);
    eligibleDrones, droneWarnings := [], [];
    for i := 0 to |drones|
      invariant eligibleDrones == Accepted(drones[..i], judge)
      invariant droneWarnings == Warnings(drones[..i], judge)
    {
      var drone := drones[i];
      Contribution(drones, judge, i);
      assert judge(drone) == JudgeDrone(drone, mission);
      if drone.status != Available {
        continue;
      }
      if drone.location != mission.location {
        continue;
      }
      if drone.currentAssignment != Unassigned {
        droneWarnings := droneWarnings + [DeployedWarning(drone)];
        continue;
      }
      if WeatherConflict(drone.weatherResistance, mission.weatherForecast) {
        droneWarnings := droneWarnings + [WeatherWarning(drone)];
        continue;
      }
      eligibleDrones := eligibleDrones + [drone.droneId];
    }
    assert drones[..|drones|] == drones;
  }

  /** `assign_mission`: find the first mission with the id, then judge every
      pilot and every drone in sheet order. */
  method AssignMission(pilots: seq<Pilot>, drones: seq<Drone>, missions: seq<Mission>, projectId: string)
    returns (r: Reply)
    ensures FirstIndex(missions, MissionNamed(projectId)).None? ==> r == Error(MissionNotFound)
    ensures FirstIndex(missions, MissionNamed(projectId)).Some? ==>
              r == Assigned(Matching(pilots, drones, missions[FirstIndex(missions, MissionNamed(projectId)).value],
                                     projectId))
  {
    var found := FirstIndex(missions, MissionNamed(projectId));
    if found.None? {
      return Error(MissionNotFound);
    }
    var mission := missions[found.value];
    var duration := mission.endDate - mission.startDate + 1;
    var eligiblePilots, pilotWarnings := MatchPilots(pilots, mission, duration);
    var eligibleDrones, droneWarnings := MatchDrones(drones, mission);
    r := Assigned(Assignment(projectId, eligiblePilots, eligibleDrones, pilotWarnings, droneWarnings));
  }

  /** `urgent_reassignment`: only High and Urgent missions are matched, and a
      match without any eligible pilot becomes an advisory message. */
  method UrgentReassignment(pilots: seq<Pilot>, drones: seq<Drone>, missions: seq<Mission>, projectId: string)
    returns (r: Reply)
    ensures FirstIndex(missions, MissionNamed(projectId)).None? ==> r == Error(MissionNotFound)
    ensures FirstIndex(missions, MissionNamed(projectId)).Some? ==>
              var m := missions[FirstIndex(missions, MissionNamed(projectId)).value];
              var matching := Matching(pilots, drones, m, projectId);
              && (m.priority !in ["High", "Urgent"] ==> r == Message(NotHighPriority))
              && (m.priority in ["High", "Urgent"] && matching.eligiblePilots != [] ==> r == Assigned(matching))
              && (m.priority in ["High", "Urgent"] && matching.eligiblePilots == [] ==> r == Message(NoDirectPilot))
  {
    var found := FirstIndex(missions, MissionNamed(projectId));
    if found.None? {
      return Error(MissionNotFound);
    }
    var mission := missions[found.value];
    if mission.priority !in ["High", "Urgent"] {
      return Message(NotHighPriority);
    }
    var result := AssignMission(pilots, drones, missions, projectId);
    if result.Assigned? && result.assignment.eligiblePilots != [] {
      return result;
    }
    return Message(NoDirectPilot);
  }
}
