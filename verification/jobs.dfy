/** Job recommendations: the type the refresh step derives from a job's title,
    the updater the apply handler hands to setJobRecommendations, and the
    lookup whose result decides whether the application is logged. */
module Jobs {
  import opened Records
  import opened JsText

  const InternMarker := "intern"

  /** job.title.toLowerCase().includes('intern'). Lowering only ASCII capitals
      gives the same answer as full Unicode lowering here: no other character
      lowers to one of the letters of "intern" on its own. */
  function IsInternshipTitle(title: string): (b: bool)
    ensures b <==> exists i :: 0 <= i <= |title| && InternMarker <= ToLower(title)[i..]
  {
    Includes(ToLower(title), InternMarker)
  }

  /** The marker with every letter capitalised. */
  const InternMarkerUpper := "INTERN"

  /** The marker starts at position i of title, each letter in either case. */
  predicate MarkerAt(title: string, i: int)
    requires 0 <= i && i + |InternMarker| <= |title|
  {
    forall j :: 0 <= j < |InternMarker| ==>
      title[i + j] == InternMarker[j] || title[i + j] == InternMarkerUpper[j]
  }

  /** One character lowers to the j-th letter of the marker exactly when it
      is that letter in lower or upper case. */
  lemma LowersToMarkerLetter(c: char, j: int)
    requires 0 <= j < |InternMarker|
    ensures LowerChar(c) == InternMarker[j] <==> c == InternMarker[j] || c == InternMarkerUpper[j]
  {
    assert InternMarkerUpper[j] as int + 32 == InternMarker[j] as int;
  }

  /** The internship test is a case-insensitive search for "intern": the title
      is an internship's exactly when "intern", each letter in either case,
      occurs somewhere in it. */
  lemma InternshipIffCaseInsensitive(title: string)
    ensures IsInternshipTitle(title) <==>
      exists i :: 0 <= i && i + |InternMarker| <= |title| && MarkerAt(title, i)
  {
    var lowered := ToLower(title);
    if IsInternshipTitle(title) {
      var i :| 0 <= i <= |title| && InternMarker <= lowered[i..];
      forall j | 0 <= j < |InternMarker|
        ensures title[i + j] == InternMarker[j] || title[i + j] == InternMarkerUpper[j]
      {
        assert lowered[i..][j] == LowerChar(title[i + j]);
        LowersToMarkerLetter(title[i + j], j);
      }
      assert MarkerAt(title, i);
    }
    if exists i :: 0 <= i && i + |InternMarker| <= |title| && MarkerAt(title, i) {
      var i :| 0 <= i && i + |InternMarker| <= |title| && MarkerAt(title, i);
      forall j | 0 <= j < |InternMarker|
        ensures lowered[i..][j] == InternMarker[j]
      {
        LowersToMarkerLetter(title[i + j], j);
      }
      assert InternMarker <= lowered[i..];
    }
  }

  /** The recommendations of a successful refresh: every field kept but the
      type, which is internship exactly when the title mentions "intern". */
  function FormatJobs(raw: seq<JobRecommendation>): (r: seq<JobRecommendation>)
    ensures |r| == |raw|
    ensures forall i :: 0 <= i < |raw| ==>
      (r[i].kind == Internship <==> IsInternshipTitle(raw[i].title))
      && r[i].(kind := raw[i].kind) == raw[i]
  {
    seq(|raw|, i requires 0 <= i < |raw| =>
      raw[i].(kind := if IsInternshipTitle(raw[i].title) then Internship else Job))
  }

  /** appliedAt is stamped exactly on the applied recommendations. */
  predicate StampedIffApplied(jobs: seq<JobRecommendation>) {
    forall i :: 0 <= i < |jobs| ==> (jobs[i].applied <==> jobs[i].appliedAt.Some?)
  }

  /** The apply updater: every job with the id is marked applied and (re-)stamped,
      every other job stays as it is, in place. */
  function MarkApplied(jobs: seq<JobRecommendation>, jobId: string, nowIso: string): (r: seq<JobRecommendation>)
    ensures |r| == |jobs|
    ensures forall i :: 0 <= i < |jobs| ==>
      if jobs[i].id == jobId
      then r[i].applied && r[i].appliedAt == Some(nowIso)
           && r[i].(applied := jobs[i].applied, appliedAt := jobs[i].appliedAt) == jobs[i]
      else r[i] == jobs[i]
    ensures StampedIffApplied(jobs) ==> StampedIffApplied(r)
    ensures (forall i :: 0 <= i < |jobs| ==> jobs[i].id != jobId) ==> r == jobs
  {
    seq(|jobs|, i requires 0 <= i < |jobs| =>
      if jobs[i].id == jobId then jobs[i].(applied := true, appliedAt := Some(nowIso)) else jobs[i])
  }

  /** jobs.find(j => j.id === jobId): the first job with the id, if any. */
  function FindById(jobs: seq<JobRecommendation>, jobId: string): (r: Option<JobRecommendation>)
    ensures r.None? <==> forall i :: 0 <= i < |jobs| ==> jobs[i].id != jobId
    ensures r.Some? ==> exists k :: 0 <= k < |jobs| && jobs[k] == r.value && jobs[k].id == jobId
                          && forall i :: 0 <= i < k ==> jobs[i].id != jobId
  {
    if jobs == [] then None
    else if jobs[0].id == jobId then Some(jobs[0])
    else
      var r := FindById(jobs[1..], jobId);
      assert forall i :: 1 <= i < |jobs| ==> jobs[1..][i - 1] == jobs[i];
      r
  }

  /** The activity entry logged for an application. */
  function AppliedEntry(job: JobRecommendation, nowMs: nat): (e: ActivityEntry)
    ensures e.kind == JobApplied
    ensures e.description == "Applied to " + job.title + " at " + job.company
  {
    ActivityEntry(DecimalString(nowMs), JobApplied, "Job Application",
                  "Applied to " + job.title + " at " + job.company,
                  nowMs, BriefcaseIcon, "text-blue-400")
  }
}
