/** The summary statistics and status badge of src/app/admin/progress/page.tsx. */
module AdminProgressPage {
  import opened Wrappers
  import opened Aggregates
  import opened Badges

  /** One row of the student-progress table; `completed` is a percentage. */
  datatype ProgressRecord = ProgressRecord(user: string, course: string, completed: int, status: string)

  function Status(p: ProgressRecord): string { p.status }
  function Completed(p: ProgressRecord): int { p.completed }
  function IsActive(p: ProgressRecord): bool { p.status == "Active" }
  function IsFinished(p: ProgressRecord): bool { p.status == "Completed" }
  function IsOther(p: ProgressRecord): bool { p.status != "Active" && p.status != "Completed" }

  /** The four summary cards. `avgProgress` is `None` where JavaScript would compute NaN. */
  datatype Summary = Summary(totalStudents: nat, activeStudents: nat, completedCourses: nat, avgProgress: Option<int>)

  /** `totalStudents`, `activeStudents`, `completedCourses` and `avgProgress`. */
  function Summarize(records: seq<ProgressRecord>): (s: Summary)
    ensures s.totalStudents == |records|
    ensures s.activeStudents == multiset(MapSeq(records, Status))["Active"]
    ensures s.completedCourses == multiset(MapSeq(records, Status))["Completed"]
    ensures s.activeStudents + s.completedCourses + |Filter(records, IsOther)| == s.totalStudents
    ensures s.avgProgress.None? <==> records == []
    ensures s.avgProgress.Some? ==>
      var total := Sum(records, Completed);
      2 * |records| * s.avgProgress.value - |records| <= 2 * total < 2 * |records| * s.avgProgress.value + |records|
  {
    FilterCountsKey(records, IsActive, Status, "Active");
    FilterCountsKey(records, IsFinished, Status, "Completed");
    FilterPartition(records, IsActive, IsFinished, IsOther);
    Summary(|records|, |Filter(records, IsActive)|, |Filter(records, IsFinished)|,
            RoundedMean(Sum(records, Completed), |records|))
  }

  /** When every row's percentage is in 0..100, so is the average shown. */
  lemma AvgProgressIsPercentage(records: seq<ProgressRecord>)
    requires records != []
    requires forall i :: 0 <= i < |records| ==> 0 <= records[i].completed <= 100
    ensures Summarize(records).avgProgress.Some?
    ensures 0 <= Summarize(records).avgProgress.value <= 100
  {
    SumBounds(records, Completed, 0, 100);
    RoundedMeanBounds(Sum(records, Completed), |records|, 0, 100);
  }

  /** The page's own five rows (src/app/admin/progress/page.tsx:13-69). */
  const SampleRecords: seq<ProgressRecord> := [
    ProgressRecord("John Smith", "React Fundamentals", 75, "Active"),
    ProgressRecord("Sarah Johnson", "Advanced JavaScript", 50, "Active"),
    ProgressRecord("Mike Wilson", "Python Basics", 30, "Inactive"),
    ProgressRecord("Emily Davis", "UI/UX Design", 90, "Active"),
    ProgressRecord("Alex Chen", "React Fundamentals", 100, "Completed")
  ]

  /** On those rows the cards read 5 students, 3 active, 1 completed and 69% on average. */
  lemma SampleSummary()
    ensures Summarize(SampleRecords) == Summary(5, 3, 1, Some(69))
  {
    var s := SampleRecords;
    assert Sum(s, Completed) == 345 by {
      assert Sum(s[4..], Completed) == 100;
      assert Sum(s[3..], Completed) == 190;
      assert Sum(s[2..], Completed) == 220;
      assert Sum(s[1..], Completed) == 270;
    }
    RoundedMeanUnique(345, 5, 69);
    assert |Filter(s, IsActive)| == 3 by {
      assert Filter(s[4..], IsActive) == [];
      assert |Filter(s[3..], IsActive)| == 1;
      assert |Filter(s[2..], IsActive)| == 1;
      assert |Filter(s[1..], IsActive)| == 2;
    }
    assert |Filter(s, IsFinished)| == 1 by {
      assert |Filter(s[4..], IsFinished)| == 1;
      assert Filter(s[3..], IsFinished) == Filter(s[4..], IsFinished);
      assert Filter(s[2..], IsFinished) == Filter(s[3..], IsFinished);
      assert Filter(s[1..], IsFinished) == Filter(s[2..], IsFinished);
    }
  }

  /** The `statusColors` object of `getStatusBadge`. */
  const StatusColors: map<string, string> :=
    map["Completed" := GreenBadge, "Active" := BlueBadge, "Inactive" := RedBadge]

  /** `getStatusBadge`: one colour per known status, and the gray default for any other. */
  function StatusBadge(status: string): (badge: string)
    ensures status == "Completed" ==> badge == GreenBadge
    ensures status == "Active" ==> badge == BlueBadge
    ensures status == "Inactive" ==> badge == RedBadge
    ensures status !in {"Completed", "Active", "Inactive"} ==> badge == GrayBadge
  {
    LookupOr(StatusColors, status, GrayBadge)
  }
}
