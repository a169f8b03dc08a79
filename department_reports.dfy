/**
  The alert and row rules of `DepartmentReports`
  (src/components/DepartmentReports.tsx). The component's data list is a
  constant empty array; here it is a parameter, so that the rules can be
  stated for any list.
*/
module DepartmentReports {
  import opened Subsequences

  datatype Department = Department(
    name: string,
    totalEmployees: int,
    lowPerformers: int,
    nonParticipants: int)

  /** What the component shows above the quick actions. */
  datatype Banner = NoBanner | AttentionBanner(count: nat)

  /** What the report grid shows. */
  datatype Grid = NoDepartmentData | Cards(departments: seq<Department>)

  const NonParticipantAlertThreshold := 5
  const PerformingWellNonParticipantLimit := 2

  /** The filter condition of `alertRequiredDepartments`; a department it
      holds for is never shown as performing well. */
  predicate NeedsAlert(d: Department)
    ensures NeedsAlert(d) ==> !ShowsPerformingWell(d)
  {
    d.lowPerformers > 0 || d.nonParticipants > NonParticipantAlertThreshold
  }

  /** `alertRequiredDepartments`: the departments needing an alert, in order. */
  function AlertRequired(departments: seq<Department>): (r: seq<Department>)
    ensures |r| <= |departments|
    ensures forall i :: 0 <= i < |r| ==> NeedsAlert(r[i])
    ensures forall d :: d in r <==> d in departments && NeedsAlert(d)
    ensures forall d :: multiset(r)[d] == if NeedsAlert(d) then multiset(departments)[d] else 0
    ensures IsSubsequence(r, departments)
  {
    if departments == [] then []
    else
      assert departments == [departments[0]] + departments[1..];
      if NeedsAlert(departments[0]) then [departments[0]] + AlertRequired(departments[1..])
      else AlertRequired(departments[1..])
  }

  /** The attention banner and the count it reports. */
  function BannerOf(departments: seq<Department>): (b: Banner)
    ensures b.AttentionBanner? <==> exists i :: 0 <= i < |departments| && NeedsAlert(departments[i])
    ensures b.AttentionBanner? ==> b.count == |AlertRequired(departments)| && b.count >= 1
  {
    var alerts := AlertRequired(departments);
    if |alerts| > 0 then
      assert alerts[0] in departments;
      AttentionBanner(|alerts|)
    else
      assert forall i :: 0 <= i < |departments| ==> !NeedsAlert(departments[i]) by {
        forall i | 0 <= i < |departments| ensures !NeedsAlert(departments[i]) {
          assert departments[i] in departments;
        }
      }
      NoBanner
  }

  /** The grid: a placeholder for an empty list, one card per department otherwise. */
  function GridOf(departments: seq<Department>): (g: Grid)
    ensures g.NoDepartmentData? <==> departments == []
    ensures g.Cards? ==> g.departments == departments
  {
    if |departments| == 0 then NoDepartmentData else Cards(departments)
  }

  /** The low-performer row appears; such a department is always alerted. */
  predicate ShowsLowPerformerRow(d: Department)
    ensures ShowsLowPerformerRow(d) ==> NeedsAlert(d)
  {
    d.lowPerformers > 0
  }

  /** The non-participant row appears; an alerted department without low
      performers always shows it. */
  predicate ShowsNonParticipantRow(d: Department)
    ensures NeedsAlert(d) && !ShowsLowPerformerRow(d) ==> ShowsNonParticipantRow(d)
  {
    d.nonParticipants > 0
  }

  /** "Department performing well!" appears; such a department is under
      both alert thresholds. */
  predicate ShowsPerformingWell(d: Department)
    ensures ShowsPerformingWell(d) ==>
              d.lowPerformers <= 0 && d.nonParticipants <= NonParticipantAlertThreshold
  {
    d.lowPerformers == 0 && d.nonParticipants <= PerformingWellNonParticipantLimit
  }

  /** A department shown as performing well is never in the alert list
      and does not show the low-performer row. */
  lemma PerformingWellIsNeverAlerted(departments: seq<Department>, d: Department)
    requires ShowsPerformingWell(d)
    ensures d !in AlertRequired(departments)
    ensures !ShowsLowPerformerRow(d)
  {
  }

  /** Any department in the alert list shows at least one issue row. */
  lemma AlertedShowsAnIssueRow(departments: seq<Department>, d: Department)
    requires d in AlertRequired(departments)
    ensures ShowsLowPerformerRow(d) || ShowsNonParticipantRow(d)
    ensures !ShowsPerformingWell(d)
  {
  }

  /** With the component's constant empty data, no banner is shown and the
      placeholder replaces the cards. */
  lemma EmptyDataShowsPlaceholder()
    ensures BannerOf([]) == NoBanner && GridOf([]) == NoDepartmentData
  {
  }
}
