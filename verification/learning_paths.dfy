/** The learning-path store: the per-path transforms of the refresh step and of
    the "Continue" handler, the average-progress figure, the path the add form
    creates and the placeholder installed when a refresh pass throws. */
module LearningPaths {
  import opened Records
  import opened JsText

  const ProgressStep := 10
  const FullProgress := 100

  /** The status the refresh step derives from a progress value. */
  function StatusOf(progress: int): (s: Status)
    ensures s == NotStarted <==> progress == 0
    ensures s == Completed <==> progress == FullProgress
  {
    if progress == 0 then NotStarted
    else if progress == FullProgress then Completed
    else InProgress
  }

  /** A path whose progress is a percentage and whose status is derived from it. */
  predicate Consistent(p: LearningPath) {
    0 <= p.progress <= FullProgress && p.status == StatusOf(p.progress)
  }

  predicate AllConsistent(ps: seq<LearningPath>) {
    forall i :: 0 <= i < |ps| ==> Consistent(ps[i])
  }

  /** The paths of a successful refresh: every field kept but the status, which
      is recomputed from the progress. */
  function FormatPaths(raw: seq<LearningPath>): (r: seq<LearningPath>)
    ensures |r| == |raw|
    ensures forall i :: 0 <= i < |raw| ==>
      r[i].status == StatusOf(r[i].progress) && r[i].(status := raw[i].status) == raw[i]
    ensures (forall i :: 0 <= i < |raw| ==> 0 <= raw[i].progress <= FullProgress) ==> AllConsistent(r)
  {
    seq(|raw|, i requires 0 <= i < |raw| => raw[i].(status := StatusOf(raw[i].progress)))
  }

  /** Math.min(progress + 10, 100). */
  function NextProgress(progress: int): (q: int)
    ensures q <= FullProgress
    ensures progress <= FullProgress - ProgressStep ==> q == progress + ProgressStep
    ensures progress >= FullProgress - ProgressStep ==> q == FullProgress
  {
    if progress + ProgressStep < FullProgress then progress + ProgressStep else FullProgress
  }

  /** One "Continue" click on a path. */
  function Advanced(p: LearningPath, nowIso: string): (q: LearningPath)
    ensures q.progress == NextProgress(p.progress)
    ensures q.status == Completed <==> q.progress == FullProgress
    ensures q.status != NotStarted
    ensures q.lastAccessed == Some(nowIso)
    ensures q.(progress := p.progress, status := p.status, lastAccessed := p.lastAccessed) == p
  {
    var progress := NextProgress(p.progress);
    p.(progress := progress,
       status := if progress == FullProgress then Completed else InProgress,
       lastAccessed := Some(nowIso))
  }

  /** The updater handed to setLearningPaths by the "Continue" handler: every
      path with the id advances, every other path stays as it is, in place. */
  function AdvancePaths(ps: seq<LearningPath>, pathId: string, nowIso: string): (r: seq<LearningPath>)
    ensures |r| == |ps|
    ensures forall i :: 0 <= i < |ps| ==>
      r[i] == if ps[i].id == pathId then Advanced(ps[i], nowIso) else ps[i]
    ensures AllConsistent(ps) ==> AllConsistent(r)
  {
    seq(|ps|, i requires 0 <= i < |ps| =>
      if ps[i].id == pathId then Advanced(ps[i], nowIso) else ps[i])
  }

  /** The activity entry logged when a path reaches 100. */
  function CompletedEntry(p: LearningPath, nowMs: nat): (e: ActivityEntry)
    ensures e.kind == CourseCompleted && e.description == "Finished " + p.title
  {
    ActivityEntry(DecimalString(nowMs), CourseCompleted, "Course Completed!",
                  "Finished " + p.title, nowMs, GraduationCapIcon, "text-green-400")
  }

  /** The entries a "Continue" click puts at the head of the log: one for each
      path with the id whose new progress is 100. The updater prepends each as
      it visits the path, so the last such path's entry comes first. */
  function CompletionEntries(ps: seq<LearningPath>, pathId: string, nowMs: nat): (r: seq<ActivityEntry>)
    ensures |r| <= |ps|
    ensures forall k :: 0 <= k < |r| ==> r[k].kind == CourseCompleted
  {
    if ps == [] then []
    else
      CompletionEntries(ps[1..], pathId, nowMs) +
      (if ps[0].id == pathId && NextProgress(ps[0].progress) == FullProgress
       then [CompletedEntry(ps[0], nowMs)] else [])
  }

  /** An id no path has: no path changes and nothing is logged. */
  lemma {:induction false} AdvanceUnknownId(ps: seq<LearningPath>, pathId: string, nowIso: string, nowMs: nat)
    requires forall i :: 0 <= i < |ps| ==> ps[i].id != pathId
    ensures AdvancePaths(ps, pathId, nowIso) == ps
    ensures CompletionEntries(ps, pathId, nowMs) == []
  {
    if ps != [] {
      AdvanceUnknownId(ps[1..], pathId, nowIso, nowMs);
    }
  }

  /** With ids unique, a click logs exactly one "Finished <title>" entry when
      the path ends at 100 (also when it was at 100 already) and none otherwise. */
  lemma {:induction false} CompletionOfUniquePath(ps: seq<LearningPath>, k: nat, nowMs: nat)
    requires k < |ps|
    requires forall i :: 0 <= i < |ps| && i != k ==> ps[i].id != ps[k].id
    ensures CompletionEntries(ps, ps[k].id, nowMs) ==
      if NextProgress(ps[k].progress) == FullProgress then [CompletedEntry(ps[k], nowMs)] else []
  {
    if k == 0 {
      AdvanceUnknownId(ps[1..], ps[0].id, "", nowMs);
    } else {
      CompletionOfUniquePath(ps[1..], k - 1, nowMs);
    }
  }

  /** k clicks on one path. */
  function AdvancedTimes(p: LearningPath, k: nat, nowIso: string): (q: LearningPath)
    ensures q.id == p.id && q.title == p.title
  {
    if k == 0 then p else Advanced(AdvancedTimes(p, k - 1, nowIso), nowIso)
  }

  /** However often a path is advanced its progress is min(p + 10k, 100): it
      never passes 100 and stays completed once it gets there. One click caps
      any progress, so only zero clicks need a starting value of at most 100. */
  lemma {:induction false} RepeatedAdvance(p: LearningPath, k: nat, nowIso: string)
    requires k > 0 || p.progress <= FullProgress
    ensures var q := AdvancedTimes(p, k, nowIso);
      q.progress == (if p.progress + ProgressStep * k < FullProgress
                     then p.progress + ProgressStep * k else FullProgress)
      && (k > 0 ==> (q.status == Completed <==> q.progress == FullProgress))
  {
    if k > 1 || (k == 1 && p.progress <= FullProgress) {
      RepeatedAdvance(p, k - 1, nowIso);
    }
  }

  /** formattedPaths.reduce((acc, path) => acc + path.progress, 0), folded from the left. */
  function SumProgress(ps: seq<LearningPath>): int {
    if ps == [] then 0 else SumProgress(ps[..|ps| - 1]) + ps[|ps| - 1].progress
  }

  lemma {:induction false} SumProgressBounds(ps: seq<LearningPath>)
    requires forall i :: 0 <= i < |ps| ==> 0 <= ps[i].progress <= FullProgress
    ensures 0 <= SumProgress(ps) <= FullProgress * |ps|
  {
    if ps != [] {
      SumProgressBounds(ps[..|ps| - 1]);
    }
  }

  /** Math.round(num / den) for den > 0: the integer nearest num / den, a half
      rounded up. */
  function RoundQuotient(num: int, den: int): (r: int)
    requires den > 0
    ensures 2 * den * r - den <= 2 * num < 2 * den * r + den
  {
    var r := (2 * num + den) / (2 * den);
    assert 2 * den * r <= 2 * num + den < 2 * den * r + 2 * den;
    r
  }

  /** The average progress the refresh step computes. The division has no
      guard, so an empty list gives 0/0, which rounds to NaN. */
  function AverageProgress(ps: seq<LearningPath>): (a: Average)
    ensures a.NaN? <==> ps == []
    ensures ps != [] ==>
      2 * |ps| * a.value - |ps| <= 2 * SumProgress(ps) < 2 * |ps| * a.value + |ps|
  {
    if ps == [] then NaN else Mean(RoundQuotient(SumProgress(ps), |ps|))
  }

  /** The average of percentages is a percentage. */
  lemma AverageIsPercentage(ps: seq<LearningPath>)
    requires ps != []
    requires forall i :: 0 <= i < |ps| ==> 0 <= ps[i].progress <= FullProgress
    ensures 0 <= AverageProgress(ps).value <= FullProgress
  {
    SumProgressBounds(ps);
  }

  const DefaultEstimate := "8-12 weeks"

  /** The path the add form creates. */
  function NewPath(title: string, description: string, difficulty: string, nowMs: nat, nowIso: string): (p: LearningPath)
    ensures Consistent(p) && p.progress == 0 && p.status == NotStarted
    ensures p.skills == [] && p.estimatedTime == DefaultEstimate
    ensures p.title == title && p.description == description && p.difficulty == difficulty
  {
    LearningPath(DecimalString(nowMs), title, description, 0, DefaultEstimate,
                 difficulty, [], NotStarted, Some(nowIso))
  }

  /** The placeholder installed when a refresh pass throws. */
  const FallbackPath := LearningPath(
    "1", "Full-Stack Web Development",
    "Master React, Node.js, and modern web technologies",
    35, "12 weeks", "Intermediate",
    ["React", "Node.js", "MongoDB", "TypeScript"],
    InProgress, Some("2024-01-20T10:30:00Z"))

  const FallbackAverage := 35

  /** The placeholder is itself consistent, and the figure set beside it is its
      own average. */
  lemma FallbackAgrees()
    ensures AllConsistent([FallbackPath])
    ensures AverageProgress([FallbackPath]) == Mean(FallbackAverage)
  {
    assert SumProgress([FallbackPath]) == 35;
  }
}
