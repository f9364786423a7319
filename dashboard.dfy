/**
 * The dashboard (`Index` page): the three most recent lists it shows and
 * the four statistics cards computed from them and from the profile.
 */
module Dashboard {
  import opened Storage
  import ProjectCard

  /** `xs.slice(0, n)`. */
  function FirstAtMost<T>(xs: seq<T>, n: nat): (r: seq<T>)
    ensures |r| <= n && |r| <= |xs| && r <= xs
    ensures |xs| <= n ==> r == xs
    ensures |xs| > n ==> |r| == n
  {
    if |xs| <= n then xs else xs[..n]
  }

  /** `projects.reduce((acc, p) => acc + completed(p), 0)`. */
  function SumCompleted(projects: seq<StudyProject>): (n: nat)
    ensures projects == [] ==> n == 0
  {
    if projects == [] then 0
    else ProjectCard.CompletedChapters(projects[0].chapters) + SumCompleted(projects[1..])
  }

  /** The sum counts at most every chapter of the summed projects. */
  function ChapterTotal(projects: seq<StudyProject>): nat
  {
    if projects == [] then 0 else |projects[0].chapters| + ChapterTotal(projects[1..])
  }

  lemma {:induction false} SumCompletedBounded(projects: seq<StudyProject>)
    ensures SumCompleted(projects) <= ChapterTotal(projects)
  {
    if projects != [] {
      SumCompletedBounded(projects[1..]);
    }
  }

  /** `Math.floor(m / 60)`: for a positive divisor Dafny's division already rounds down. */
  function Hours(minutes: int): (h: int)
    ensures h * 60 <= minutes < h * 60 + 60
    ensures minutes >= 0 ==> h >= 0
  {
    minutes / 60
  }

  /** JavaScript's `m % 60`, whose result takes the sign of `m`. */
  function JsRemainder60(m: int): (r: int)
    ensures m >= 0 ==> 0 <= r < 60
    ensures m < 0 ==> -60 < r <= 0
  {
    if m >= 0 then m % 60 else -((-m) % 60)
  }

  /** For a non-negative total the two cards recompose it. */
  lemma HoursAndMinutes(m: int)
    requires m >= 0
    ensures Hours(m) * 60 + JsRemainder60(m) == m
    ensures 0 <= JsRemainder60(m) < 60 && Hours(m) >= 0
  {
  }

  datatype Stats = Stats(
    projects: seq<StudyProject>,
    journals: seq<JournalEntry>,
    completedChapters: nat,
    hours: int,
    minutes: int)

  /** What the dashboard renders from the store. */
  function DashboardStats(store: LocalStore): (s: Stats)
    reads store
    ensures s.projects == FirstAtMost(store.GetProjects(), 3) && s.journals == FirstAtMost(store.GetJournals(), 3)
    ensures |s.projects| == (if |store.GetProjects()| <= 3 then |store.GetProjects()| else 3)
    ensures |s.journals| == (if |store.GetJournals()| <= 3 then |store.GetJournals()| else 3)
    ensures s.projects <= store.GetProjects() && s.journals <= store.GetJournals()
    ensures s.completedChapters == SumCompleted(s.projects)
    ensures store.GetProjects() == [] ==> s.completedChapters == 0
    ensures s.hours == Hours(store.GetUserProfile().totalLearningMinutes)
    ensures s.minutes == JsRemainder60(store.GetUserProfile().totalLearningMinutes)
  {
    var projects := FirstAtMost(store.GetProjects(), 3);
    var journals := FirstAtMost(store.GetJournals(), 3);
    var total := store.GetUserProfile().totalLearningMinutes;
    Stats(projects, journals, SumCompleted(projects), Hours(total), JsRemainder60(total))
  }

  /** Only the first three projects are summed: projects stored after them never change the count. */
  lemma OnlyShownProjectsCount(shown: seq<StudyProject>, later: seq<StudyProject>)
    requires |shown| >= 3
    ensures SumCompleted(FirstAtMost(shown + later, 3)) == SumCompleted(FirstAtMost(shown, 3))
  {
    var prefix := shown[..3];
    assert (shown + later)[..3] == prefix;
    if |shown + later| > 3 {
      assert FirstAtMost(shown + later, 3) == prefix;
    } else {
      assert later == [] && shown + later == shown;
    }
    if |shown| > 3 {
      assert FirstAtMost(shown, 3) == prefix;
    } else {
      assert prefix == shown;
    }
  }
}
