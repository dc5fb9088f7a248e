/** The overall progress, course counts and status badge of src/app/progress/page.tsx. */
module LearnerProgressPage {
  import opened Wrappers
  import opened Aggregates
  import opened Badges

  /** One enrolled course; `progress` is a percentage. */
  datatype CourseProgress = CourseProgress(course: string, completedLessons: int, totalLessons: int,
                                           progress: int, status: string)

  function Progress(c: CourseProgress): int { c.progress }
  function IsComplete(c: CourseProgress): bool { c.progress == 100 }
  function IsUnderway(c: CourseProgress): bool { 0 < c.progress < 100 }
  function IsNeither(c: CourseProgress): bool { !IsComplete(c) && !IsUnderway(c) }

  /** The three figures of the page. `overallProgress` is `None` where JavaScript would compute NaN. */
  datatype Summary = Summary(overallProgress: Option<int>, completedCourses: nat, inProgressCourses: nat)

  /** `overallProgress`, `completedCourses` and `inProgressCourses`. */
  function Summarize(courses: seq<CourseProgress>): (s: Summary)
    ensures s.completedCourses == multiset(MapSeq(courses, Progress))[100]
    ensures s.completedCourses + s.inProgressCourses + |Filter(courses, IsNeither)| == |courses|
    ensures s.overallProgress.None? <==> courses == []
    ensures s.overallProgress.Some? ==>
      var total := Sum(courses, Progress);
      2 * |courses| * s.overallProgress.value - |courses| <= 2 * total < 2 * |courses| * s.overallProgress.value + |courses|
  {
    FilterCountsKey(courses, IsComplete, Progress, 100);
    FilterPartition(courses, IsComplete, IsUnderway, IsNeither);
    Summary(RoundedMean(Sum(courses, Progress), |courses|),
            |Filter(courses, IsComplete)|, |Filter(courses, IsUnderway)|)
  }

  /** No course is counted both as completed and as in progress. */
  lemma CountsAreDisjoint(courses: seq<CourseProgress>)
    ensures forall c :: c in Filter(courses, IsComplete) ==> c !in Filter(courses, IsUnderway)
  {
    forall c | c in Filter(courses, IsComplete)
      ensures c !in Filter(courses, IsUnderway)
    {
      assert multiset(Filter(courses, IsComplete))[c] > 0;
      assert multiset(Filter(courses, IsUnderway))[c] == 0;
    }
  }

  /** When every course's progress is in 0..100, so is the overall figure. */
  lemma OverallProgressIsPercentage(courses: seq<CourseProgress>)
    requires courses != []
    requires forall i :: 0 <= i < |courses| ==> 0 <= courses[i].progress <= 100
    ensures Summarize(courses).overallProgress.Some?
    ensures 0 <= Summarize(courses).overallProgress.value <= 100
  {
    SumBounds(courses, Progress, 0, 100);
    RoundedMeanBounds(Sum(courses, Progress), |courses|, 0, 100);
  }

  /** The page's own four courses (src/app/progress/page.tsx:12-49). */
  const SampleCourses: seq<CourseProgress> := [
    CourseProgress("React Fundamentals", 15, 20, 75, "In Progress"),
    CourseProgress("Advanced JavaScript", 11, 25, 44, "In Progress"),
    CourseProgress("Python Basics", 4, 18, 22, "Started"),
    CourseProgress("HTML & CSS Basics", 12, 12, 100, "Completed")
  ]

  /** On those courses the page shows 60% overall, 1 completed and 3 in progress. */
  lemma SampleSummary()
    ensures Summarize(SampleCourses) == Summary(Some(60), 1, 3)
  {
    assert SampleCourses[3..] == [SampleCourses[3]];
    var s := SampleCourses;
    assert Sum(s, Progress) == 241 by {
      assert Sum(s[3..], Progress) == 100;
      assert Sum(s[2..], Progress) == 122;
      assert Sum(s[1..], Progress) == 166;
    }
    RoundedMeanUnique(241, 4, 60);
    assert |Filter(s, IsComplete)| == 1 by {
      assert |Filter(s[3..], IsComplete)| == 1 by { assert IsComplete(s[3]); assert s[3..][1..] == []; }
      assert Filter(s[2..], IsComplete) == Filter(s[3..], IsComplete);
      assert Filter(s[1..], IsComplete) == Filter(s[2..], IsComplete);
    }
    assert |Filter(s, IsUnderway)| == 3 by {
      assert Filter(s[3..], IsUnderway) == [] by { assert !IsUnderway(s[3]); assert s[3..][1..] == []; }
      assert |Filter(s[2..], IsUnderway)| == 1;
      assert |Filter(s[1..], IsUnderway)| == 2;
    }
  }

  /** The `statusColors` object of `getStatusBadge`. */
  const StatusColors: map<string, string> :=
    map["Completed" := GreenBadge, "In Progress" := BlueBadge, "Started" := YellowBadge]

  /** `getStatusBadge`: one colour per known status, and the gray default for any other. */
  function StatusBadge(status: string): (badge: string)
    ensures status == "Completed" ==> badge == GreenBadge
    ensures status == "In Progress" ==> badge == BlueBadge
    ensures status == "Started" ==> badge == YellowBadge
    ensures status !in {"Completed", "In Progress", "Started"} ==> badge == GrayBadge
  {
    LookupOr(StatusColors, status, GrayBadge)
  }
}
