/**
 * The part of the project controller that acts on a match result: project
 * creation with automatic assignment above a threshold, the recording of
 * runners-up, and the state changes of an assignment. The project and
 * contractor collections are tables of a store object; notification sends are
 * fallible steps whose outcomes are given as parameters.
 */
module ProjectController {
  import opened Records
  import opened Scoring
  import opened Eligibility
  import opened Ranking

  /** Project status enum of the project schema. */
  datatype ProjectStatus = Requested | Assigned | InProgress | Completed | Cancelled | OnHold

  /** A top match scoring at least this much is assigned without review. */
  const AutoAssignThreshold: real := 80.0

  /** Runners-up kept on a project: ranked positions 2 to 4. */
  const MaxAlternates: nat := 3

  datatype ProjectDetails = ProjectDetails(title: string, description: string)

  /** The request body of a project creation. */
  datatype ProjectRequest = ProjectRequest(
    clientId: Option<ClientId>,
    details: Option<ProjectDetails>,
    requirements: Requirements)

  datatype Project = Project(
    id: ProjectId,
    clientId: ClientId,
    details: ProjectDetails,
    requirements: Requirements,
    remainingAmount: real,
    status: ProjectStatus,
    contractorId: Option<ContractorId>,
    actualStartDate: Option<int>,
    alternativeContractors: seq<ContractorId>)

  datatype ProjectError =
    | MissingFields        // the 400 response: a required field is absent
    | ProjectNotFound      // the assigned project does not exist
    | NotificationFailed   // a notification send failed after the updates

  /** Whether each of the two notification sends succeeds. */
  datatype Notifications = Notifications(contractorNotified: bool, clientNotified: bool)

  predicate HasRequiredFields(req: ProjectRequest)
  {
    && req.clientId.Some?
    && req.details.Some?
    && req.requirements.budget.Some?
    && req.requirements.location.Some?
  }

  /** The project as first saved: requested, unassigned, with the unpaid part of the budget. */
  function NewProject(id: ProjectId, req: ProjectRequest): (p: Project)
    requires HasRequiredFields(req)
    ensures p.id == id && p.status == Requested
    ensures p.clientId == req.clientId.value && p.details == req.details.value && p.requirements == req.requirements
    ensures p.contractorId.None? && p.actualStartDate.None? && p.alternativeContractors == []
    ensures p.remainingAmount + req.requirements.budget.value.advancePaid == req.requirements.budget.value.total
  {
    var budget := req.requirements.budget.value;
    Project(id, req.clientId.value, req.details.value, req.requirements,
            budget.total - budget.advancePaid, Requested, None, None, [])
  }

  /** The project fields an assignment overwrites. */
  function AssignTo(p: Project, contractorId: ContractorId, now: int): (q: Project)
    ensures q.contractorId == Some(contractorId) && q.status == Assigned && q.actualStartDate == Some(now)
    ensures q.(contractorId := p.contractorId, status := p.status, actualStartDate := p.actualStartDate) == p
  {
    p.(contractorId := Some(contractorId), status := Assigned, actualStartDate := Some(now))
  }

  /** `$inc` of the project count and `$push` onto the history, without a capacity check:
      the contractor stays within its limit exactly when it had room before. */
  function Book(c: Contractor, projectId: ProjectId): (d: Contractor)
    ensures d.id == c.id && d.maxConcurrentProjects == c.maxConcurrentProjects
    ensures d.currentProjects == c.currentProjects + 1
    ensures d.projectHistory == c.projectHistory + [projectId]
    ensures d.currentProjects <= d.maxConcurrentProjects <==> HasCapacity(c)
    ensures d == c.(currentProjects := d.currentProjects, projectHistory := d.projectHistory)
  {
    c.(currentProjects := c.currentProjects + 1, projectHistory := c.projectHistory + [projectId])
  }

  /** The contractor to assign automatically, if the top match clears the threshold. */
  function AutoAssignee(m: MatchResult): (choice: Option<ContractorId>)
    ensures choice.Some? <==>
      m.Matched? && |m.matches| > 0 && m.matches[0].score >= AutoAssignThreshold
    ensures choice.Some? ==> choice.value == m.matches[0].contractor.id
  {
    if m.Matched? && |m.matches| > 0 && m.matches[0].score >= AutoAssignThreshold
    then Some(m.matches[0].contractor.id)
    else None
  }

  /** Ids of the matches at ranked positions 2 to 4, in order. */
  function Alternates(matches: seq<ScoredContractor>): (ids: seq<ContractorId>)
    ensures |ids| <= MaxAlternates
    ensures |ids| == if |matches| <= 1 then 0 else if |matches| > 4 then 3 else |matches| - 1
    ensures forall i :: 0 <= i < |ids| ==> ids[i] == matches[i + 1].contractor.id
    ensures DistinctMatches(matches) && |matches| > 0 ==> matches[0].contractor.id !in ids
  {
    var n := if |matches| <= 1 then 0 else if |matches| > 4 then 3 else |matches| - 1;
    seq(n, i requires 0 <= i < n => matches[i + 1].contractor.id)
  }

  /** An automatically assigned contractor is eligible, clears the threshold,
      and scores at least as high as every eligible contractor. */
  lemma AutoAssigneeIsBest(r: Requirements, directory: seq<Contractor>, geo: Geo, now: int)
    requires AutoAssignee(FindBestMatches(r, directory, geo, now, DefaultLimit)).Some?
    ensures var top := FindBestMatches(r, directory, geo, now, DefaultLimit).matches[0];
      && top.contractor in Eligible(r, directory)
      && top.score >= AutoAssignThreshold
      && forall c :: c in Eligible(r, directory) ==> MatchScore(c, r, geo, now) <= top.score
  {
    var matches := FindBestMatches(r, directory, geo, now, DefaultLimit).matches;
    var top := matches[0];
    forall c | c in Eligible(r, directory) ensures MatchScore(c, r, geo, now) <= top.score {
      if m :| m in matches && m.contractor == c {
        var j :| 0 <= j < |matches| && matches[j] == m;
      } else {
        BestMatchesAreTop(r, directory, geo, now, DefaultLimit, c);
      }
    }
  }

  /** With distinct contractor ids, the recorded runners-up never include the top match. */
  lemma AlternatesExcludeTop(r: Requirements, directory: seq<Contractor>, geo: Geo, now: int)
    requires DistinctIds(directory)
    requires FindBestMatches(r, directory, geo, now, DefaultLimit).Matched?
    requires FindBestMatches(r, directory, geo, now, DefaultLimit).matches != []
    ensures var matches := FindBestMatches(r, directory, geo, now, DefaultLimit).matches;
      matches[0].contractor.id !in Alternates(matches)
  {
    BestMatchesDistinct(r, directory, geo, now, DefaultLimit);
  }

  /** A kitchen contractor with no open projects, rated 4.5 over 60 reviews. */
  function KitchenContractor(): Contractor
  {
    Contractor(
      1, Active, true, ["Kitchen"], ["2BHK"], ["Residential"], [], Some("Pune"), [], 50.0,
      None, Some(100000.0), 0, 3, 4.5, 60, [])
  }

  /** A High-urgency kitchen project in Pune without coordinates, starting in 45 days. */
  function KitchenProject(now: int): Requirements
  {
    Requirements(
      Some("Kitchen"), Some("2BHK"), Some("Residential"), [], Some(Budget(500000.0, 0.0)),
      Some(Location(Some("Pune"), None)), Some(now + 45 * MsPerDay), Some("High"))
  }

  /** Sub-scores 90, 100, 92, 50, 100, 100, 100 give 88.4, so the contractor is assigned. */
  lemma KitchenScenario(geo: Geo, now: int)
    ensures MatchScore(KitchenContractor(), KitchenProject(now), geo, now) == 88.4
    ensures FindBestMatches(KitchenProject(now), [KitchenContractor()], geo, now, DefaultLimit)
      == Matched([ScoredContractor(KitchenContractor(), 88.4)], 1)
    ensures AutoAssignee(FindBestMatches(KitchenProject(now), [KitchenContractor()], geo, now, DefaultLimit)) == Some(1)
  {
    var c, r := KitchenContractor(), KitchenProject(now);
    assert SubScoresOf(c, r, geo, now) == SubScores(90.0, 100.0, 92.0, 50.0, 100.0, 100.0, 100.0) by {
      assert ExpertiseScore(c, r) == 90.0;
      assert AvailabilityScore(c) == 100.0;
      RatingExample(c);
      assert LocationUnknown(c, r);
      assert BudgetScore(c, r) == 100.0;
      assert DaysUntil(now + 45 * MsPerDay, now) == 45;
      assert UrgencyScore(c, r) == 100.0;
    }
    CompositeExample();
    assert Eligible(r, [c]) == [c] by {
      assert IsEligible(r, c);
      assert [c][1..] == [];
    }
    var scored := ScoredEligible(r, [c], geo, now);
    assert scored == [ScoredContractor(c, 88.4)];
  }

  /** Both notification sends succeed. */
  predicate Delivered(notices: Notifications)
  {
    notices.contractorNotified && notices.clientNotified
  }

  /** What creating a project reports once its match result has been acted on:
      a failed notification after an automatic assignment is an error. */
  function DecisionResult(matching: MatchResult, notices: Notifications): (result: Result<MatchResult, ProjectError>)
    ensures result.Err? <==> AutoAssignee(matching).Some? && !Delivered(notices)
    ensures result.Ok? ==> result.value == matching
  {
    if AutoAssignee(matching).Some? && !Delivered(notices) then Err(NotificationFailed) else Ok(matching)
  }

  /** The saved project once the match result has been acted on. */
  function Decided(saved: Project, matching: MatchResult, now: int, notices: Notifications): Project
  {
    var assignee := AutoAssignee(matching);
    var updated := if assignee.Some? then AssignTo(saved, assignee.value, now) else saved;
    if DecisionResult(matching, notices).Err? then updated
    else if matching.Matched? && matching.matches != [] then updated.(alternativeContractors := Alternates(matching.matches))
    else updated
  }

  /** Acting on a match result assigns the project exactly when a contractor
      clears the threshold, and writes the runners-up exactly when the
      decision succeeded on a non-empty list; nothing else about the project changes. */
  lemma DecidedFields(saved: Project, matching: MatchResult, now: int, notices: Notifications)
    ensures var p := Decided(saved, matching, now, notices);
      && p.id == saved.id && p.clientId == saved.clientId && p.details == saved.details
      && p.requirements == saved.requirements && p.remainingAmount == saved.remainingAmount
    ensures var p := Decided(saved, matching, now, notices);
      AutoAssignee(matching).None? ==>
        p.status == saved.status && p.contractorId == saved.contractorId && p.actualStartDate == saved.actualStartDate
    ensures var p := Decided(saved, matching, now, notices);
      AutoAssignee(matching).Some? ==>
        p.status == Assigned && p.contractorId == AutoAssignee(matching) && p.actualStartDate == Some(now)
    ensures var p := Decided(saved, matching, now, notices);
      DecisionResult(matching, notices).Ok? && matching.Matched? && matching.matches != [] ==>
        p.alternativeContractors == Alternates(matching.matches)
    ensures var p := Decided(saved, matching, now, notices);
      DecisionResult(matching, notices).Err? || matching.NoContractorsAvailable? || matching.matches == [] ==>
        p.alternativeContractors == saved.alternativeContractors
  {
  }

  /** The contractor table once the match result has been acted on. */
  function BookedTable(table: map<ContractorId, Contractor>, matching: MatchResult, projectId: ProjectId): (t: map<ContractorId, Contractor>)
    requires AutoAssignee(matching).Some? ==> AutoAssignee(matching).value in table
    ensures t.Keys == table.Keys
    ensures AutoAssignee(matching).None? ==> t == table
    ensures AutoAssignee(matching).Some? ==>
      var id := AutoAssignee(matching).value;
      && t[id] == Book(table[id], projectId)
      && t[id].currentProjects == table[id].currentProjects + 1
      && t[id].projectHistory == table[id].projectHistory + [projectId]
      && forall other :: other in table && other != id ==> t[other] == table[other]
  {
    match AutoAssignee(matching)
    case None => table
    case Some(id) => table[id := Book(table[id], projectId)]
  }

  lemma UpdateTwice<K, V>(m: map<K, V>, k: K, first: V, second: V)
    ensures m[k := first][k := second] == m[k := second]
  {
  }

  /** The project and contractor tables, and the contractors' natural order. */
  class ProjectStore {
    var projects: map<ProjectId, Project>
    var contractors: map<ContractorId, Contractor>
    var order: seq<ContractorId>

    ghost predicate Valid()
      reads this
    {
      && (forall i, j :: 0 <= i < j < |order| ==> order[i] != order[j])
      && (forall id :: id in order <==> id in contractors)
      && (forall id :: id in contractors ==> contractors[id].id == id)
      && (forall id :: id in projects ==> projects[id].id == id)
    }

    constructor (projects: map<ProjectId, Project>, contractors: map<ContractorId, Contractor>, order: seq<ContractorId>)
      requires forall i, j :: 0 <= i < j < |order| ==> order[i] != order[j]
      requires forall id :: id in order <==> id in contractors
      requires forall id :: id in contractors ==> contractors[id].id == id
      requires forall id :: id in projects ==> projects[id].id == id
      ensures Valid()
      ensures this.projects == projects && this.contractors == contractors && this.order == order
    {
      this.projects := projects;
      this.contractors := contractors;
      this.order := order;
    }

    /** The contractor collection in natural order, as a query returns it. */
    function Directory(): (d: seq<Contractor>)
      reads this
      requires Valid()
      ensures |d| == |order|
      ensures forall i :: 0 <= i < |order| ==> d[i] == contractors[order[i]]
      ensures DistinctIds(d)
    {
      seq(|order|, i reads this requires 0 <= i < |order| && Valid() => contractors[order[i]])
    }

    /** Every contractor of the directory is the table entry under its own id. */
    lemma DirectoryEntry(c: Contractor)
      requires Valid() && c in Directory()
      ensures c.id in contractors && contractors[c.id] == c
    {
      var i :| 0 <= i < |order| && Directory()[i] == c;
    }

    /** A contractor chosen for automatic assignment is in the contractor table. */
    lemma AutoAssigneeInTable(r: Requirements, geo: Geo, now: int)
      requires Valid()
      ensures AutoAssignee(FindBestMatches(r, Directory(), geo, now, DefaultLimit)).Some? ==>
        AutoAssignee(FindBestMatches(r, Directory(), geo, now, DefaultLimit)).value in contractors
    {
      var matching := FindBestMatches(r, Directory(), geo, now, DefaultLimit);
      if AutoAssignee(matching).Some? {
        MatchesComeFromDirectory(r, Directory(), geo, now, DefaultLimit, 0);
        DirectoryEntry(matching.matches[0].contractor);
      }
    }

    method AssignContractor(projectId: ProjectId, contractorId: ContractorId, now: int, notices: Notifications)
      returns (result: Result<Project, ProjectError>)
      requires Valid()
      modifies this
      ensures Valid() && order == old(order)
      ensures projects == if projectId in old(projects)
        then old(projects)[projectId := AssignTo(old(projects)[projectId], contractorId, now)]
        else old(projects)
      ensures contractors == if contractorId in old(contractors)
        then old(contractors)[contractorId := Book(old(contractors)[contractorId], projectId)]
        else old(contractors)
      ensures !notices.contractorNotified ==> result == Err(NotificationFailed)
      ensures notices.contractorNotified && projectId !in old(projects) ==> result == Err(ProjectNotFound)
      ensures notices.contractorNotified && projectId in old(projects) ==>
        result == if notices.clientNotified then Ok(projects[projectId]) else Err(NotificationFailed)
    {
      var found := projectId in projects;
      if found {
        projects := projects[projectId := AssignTo(projects[projectId], contractorId, now)];
      }
      if contractorId in contractors {
        contractors := contractors[contractorId := Book(contractors[contractorId], projectId)];
      }
      if !notices.contractorNotified {
        return Err(NotificationFailed);
      }
      if !found {
        // reading the client of a project the update did not find fails
        return Err(ProjectNotFound);
      }
      if !notices.clientNotified {
        return Err(NotificationFailed);
      }
      return Ok(projects[projectId]);
    }

    /** Stores the runners-up of a non-empty ranked list on a project. */
    method RecordAlternates(projectId: ProjectId, matches: seq<ScoredContractor>)
      requires Valid() && projectId in projects
      modifies this
      ensures Valid() && order == old(order) && contractors == old(contractors)
      ensures projects == old(projects)[projectId := old(projects)[projectId].(alternativeContractors := Alternates(matches))]
    {
      projects := projects[projectId := projects[projectId].(alternativeContractors := Alternates(matches))];
    }

    /** The decision taken on a match result for a saved project: assign the top
        match when it clears the threshold, then record the runners-up. */
    method ApplyMatching(projectId: ProjectId, matching: MatchResult, now: int, notices: Notifications)
      returns (result: Result<MatchResult, ProjectError>)
      requires Valid()
      requires projectId in projects
      requires AutoAssignee(matching).Some? ==> AutoAssignee(matching).value in contractors
      modifies this
      ensures Valid() && order == old(order)
      ensures result == DecisionResult(matching, notices)
      ensures projects == old(projects)[projectId := Decided(old(projects)[projectId], matching, now, notices)]
      ensures contractors == BookedTable(old(contractors), matching, projectId)
    {
      ghost var saved := projects[projectId];
      if matching.Matched? && |matching.matches| > 0 {
        var best := matching.matches[0];
        if best.score >= AutoAssignThreshold {
          var outcome := AssignContractor(projectId, best.contractor.id, now, notices);
          if outcome.Err? {
            return Err(outcome.error);
          }
          UpdateTwice(old(projects), projectId, AssignTo(saved, best.contractor.id, now),
                      Decided(saved, matching, now, notices));
        }
        RecordAlternates(projectId, matching.matches);
      }
      return Ok(matching);
    }

    method CreateProject(req: ProjectRequest, projectId: ProjectId, geo: Geo, now: int, notices: Notifications)
      returns (result: Result<MatchResult, ProjectError>)
      requires Valid()
      requires projectId !in projects
      modifies this
      ensures Valid() && order == old(order)
      ensures !HasRequiredFields(req) ==>
        result == Err(MissingFields) && projects == old(projects) && contractors == old(contractors)
      ensures HasRequiredFields(req) ==>
        var matching := FindBestMatches(req.requirements, old(Directory()), geo, now, DefaultLimit);
        && (AutoAssignee(matching).Some? ==> AutoAssignee(matching).value in old(contractors))
        && result == DecisionResult(matching, notices)
        && projects == old(projects)[projectId := Decided(NewProject(projectId, req), matching, now, notices)]
        && contractors == BookedTable(old(contractors), matching, projectId)
    {
      if !HasRequiredFields(req) {
        return Err(MissingFields);
      }
      // The match reads only the contractor table, so it may run before the project is saved.
      var matching := FindBestMatches(req.requirements, Directory(), geo, now, DefaultLimit);
      AutoAssigneeInTable(req.requirements, geo, now);
      var created := NewProject(projectId, req);
      projects := projects[projectId := created];
      result := ApplyMatching(projectId, matching, now, notices);
      UpdateTwice(old(projects), projectId, created, Decided(created, matching, now, notices));
    }
  }
}
