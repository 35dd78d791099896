/** The learner dashboard's session state and its handlers. Each piece of
    component state is a field of Session; each handler is a method. What a
    handler awaits (a response, the logout call) and what it reads from the
    clock are parameters, so every method is one sequential step. */
module Dashboard {
  import opened Records
  import opened JsText
  import opened LearningPaths
  import opened Jobs
  import opened Assistant

  const InitialCareerScore := 85
  const DefaultDifficulty := "Beginner"

  /** The entry a successful logout prepends. */
  function LogoutEntry(nowMs: nat): (e: ActivityEntry)
    ensures e.kind == Login && e.title == "Logged out"
  {
    ActivityEntry(DecimalString(nowMs), Login, "Logged out",
                  "Successfully logged out of your account", nowMs, LogOutIcon, "text-gray-400")
  }

  /** The single entry a refresh pass that does not throw leaves as the log;
      clockText is the local time of day as the browser formats it. */
  function LoginEntry(nowMs: nat, clockText: string): (e: ActivityEntry)
    ensures e.kind == Login && e.id == "1" && e.description == "Logged in at " + clockText
  {
    ActivityEntry("1", Login, "Login Activity", "Logged in at " + clockText,
                  nowMs, LogOutIcon, "text-blue-400")
  }

  /** A refresh pass ends in its catch block when any of its three requests
      rejects or any body it reads throws. */
  predicate PassThrows(learning: Response<seq<LearningPath>>,
                       jobs: Response<seq<JobRecommendation>>,
                       stats: Response<Stats>)
  {
    || learning.Rejected? || jobs.Rejected? || stats.Rejected?
    || learning.Unreadable? || jobs.Unreadable? || stats.Unreadable?
  }

  /** The recommendations are replaced when their response is OK and the pass
      got that far: no request rejected and the paths body read cleanly. The
      catch block does not undo this. */
  predicate JobsReplaced(learning: Response<seq<LearningPath>>,
                         jobs: Response<seq<JobRecommendation>>,
                         stats: Response<Stats>)
  {
    jobs.Ok? && !learning.Rejected? && !stats.Rejected? && !learning.Unreadable?
  }

  /** The form's fields fail validation: title or description is blank. */
  predicate PathFormRejected(title: string, description: string) {
    IsBlank(title) || IsBlank(description)
  }

  class Session {
    var learningPaths: seq<LearningPath>
    var jobRecommendations: seq<JobRecommendation>
    var activityLogs: seq<ActivityEntry>
    var loading: bool
    var careerScore: int
    var averageProgress: Average
    var aiMessages: seq<AIMessage>
    var newMessage: string
    var aiLoading: bool
    var liveOpportunities: Snapshot
    var opportunitiesLoading: bool
    var showAddPath: bool
    var newPathTitle: string
    var newPathDescription: string
    var newPathDifficulty: string

    /** Between handlers nothing is in flight, and the transcript opens with
        the seeded greeting. */
    ghost predicate Valid()
      reads this
    {
      && |aiMessages| >= 1
      && aiMessages[0].id == "1" && aiMessages[0].role == Assistant
      && !aiLoading && !opportunitiesLoading
    }

    /** The state the component mounts with; the greeting text is built from
        the signed-in user's e-mail address. */
    constructor (greeting: string, nowMs: nat)
      ensures Valid()
      ensures learningPaths == [] && jobRecommendations == [] && activityLogs == []
      ensures loading && careerScore == InitialCareerScore && averageProgress == Mean(0)
      ensures aiMessages == [AIMessage("1", Assistant, greeting, nowMs)]
      ensures newMessage == "" && !aiLoading
      ensures liveOpportunities == Snapshot([], [], [], None) && !opportunitiesLoading
      ensures !showAddPath && newPathTitle == "" && newPathDescription == ""
      ensures newPathDifficulty == DefaultDifficulty
    {
      learningPaths := [];
      jobRecommendations := [];
      activityLogs := [];
      loading := true;
      careerScore := InitialCareerScore;
      averageProgress := Mean(0);
      aiMessages := [AIMessage("1", Assistant, greeting, nowMs)];
      newMessage := "";
      aiLoading := false;
      liveOpportunities := Snapshot([], [], [], None);
      opportunitiesLoading := false;
      showAddPath := false;
      newPathTitle := "";
      newPathDescription := "";
      newPathDifficulty := DefaultDifficulty;
    }

    /** Logging out: once the logout call has resolved, a "Logged out" entry
        goes on top of the log; if it threw, only a toast is shown. */
    method Logout(loggedOut: bool, nowMs: nat)
      requires Valid()
      modifies this`activityLogs
      ensures Valid()
      ensures activityLogs == if loggedOut then [LogoutEntry(nowMs)] + old(activityLogs)
                              else old(activityLogs)
    {
      if loggedOut {
        activityLogs := [LogoutEntry(nowMs)] + activityLogs;
      }
    }

    /** Refreshing the live opportunities: an OK response replaces the whole
        snapshot; a non-OK response or a thrown error keeps the old one. The
        loading flag is cleared in every case once signed in. */
    method FetchLiveOpportunities(signedIn: bool, response: Response<Snapshot>)
      requires Valid()
      modifies this`liveOpportunities, this`opportunitiesLoading
      ensures Valid()
      ensures liveOpportunities == if signedIn && response.Ok? then response.body
                                   else old(liveOpportunities)
    {
      if !signedIn {
        return;
      }
      opportunitiesLoading := true;
      if response.Ok? {
        liveOpportunities := response.body;
      }
      opportunitiesLoading := false;
    }

    /** The state setters the add-path dialog's inputs are bound to. */
    method EditAddPathForm(title: string, description: string, difficulty: string)
      requires Valid()
      modifies this`newPathTitle, this`newPathDescription, this`newPathDifficulty
      ensures Valid()
      ensures newPathTitle == title && newPathDescription == description
      ensures newPathDifficulty == difficulty
    {
      newPathTitle, newPathDescription, newPathDifficulty := title, description, difficulty;
    }

    /** The add-path dialog's open state: the "Add Learning Path" button opens
        it, and the dialog's own open-change callback and its Cancel button
        set it to whatever they ask for. */
    method SetAddPathDialog(open: bool)
      requires Valid()
      modifies this`showAddPath
      ensures Valid()
      ensures showAddPath == open
    {
      showAddPath := open;
    }

    /** Adding a path from the dialog: a blank title or description changes
        nothing; otherwise one fresh path goes at the end, the dialog closes
        and the form is reset. */
    method AddLearningPath(nowMs: nat, nowIso: string)
      requires Valid()
      modifies this`learningPaths, this`showAddPath
      modifies this`newPathTitle, this`newPathDescription, this`newPathDifficulty
      ensures Valid()
      ensures PathFormRejected(old(newPathTitle), old(newPathDescription)) ==>
        && learningPaths == old(learningPaths) && showAddPath == old(showAddPath)
        && newPathTitle == old(newPathTitle) && newPathDescription == old(newPathDescription)
        && newPathDifficulty == old(newPathDifficulty)
      ensures !PathFormRejected(old(newPathTitle), old(newPathDescription)) ==>
        && learningPaths == old(learningPaths) +
             [NewPath(old(newPathTitle), old(newPathDescription), old(newPathDifficulty), nowMs, nowIso)]
        && !showAddPath && newPathTitle == "" && newPathDescription == ""
        && newPathDifficulty == DefaultDifficulty
      ensures AllConsistent(old(learningPaths)) ==> AllConsistent(learningPaths)
    {
      if !PathFormRejected(newPathTitle, newPathDescription) {
        var path := NewPath(newPathTitle, newPathDescription, newPathDifficulty, nowMs, nowIso);
        assert Consistent(path);
        learningPaths := learningPaths + [path];
        showAddPath := false;
        newPathTitle := "";
        newPathDescription := "";
        newPathDifficulty := DefaultDifficulty;
      }
    }

    /** The state setter of the assistant's draft message. */
    method EditMessage(text: string)
      requires Valid()
      modifies this`newMessage
      ensures Valid()
      ensures newMessage == text
    {
      newMessage := text;
    }

    /** Sending the draft to the assistant. A blank draft changes nothing.
        Otherwise the user's turn is appended, the draft cleared, an
        ai_interaction entry put on top of the log, and once the request
        settles exactly one assistant turn is appended: the reply, or the
        offline text. */
    method SendMessage(sentMs: nat, repliedMs: nat, reply: Response<string>)
      requires Valid()
      modifies this`aiMessages, this`newMessage, this`aiLoading, this`activityLogs
      ensures Valid()
      ensures IsBlank(old(newMessage)) ==>
        && aiMessages == old(aiMessages) && newMessage == old(newMessage)
        && activityLogs == old(activityLogs)
      ensures !IsBlank(old(newMessage)) ==>
        && aiMessages == old(aiMessages) + [UserTurn(old(newMessage), sentMs), AssistantTurn(reply, repliedMs)]
        && newMessage == ""
        && activityLogs == [AskedEntry(old(newMessage), sentMs)] + old(activityLogs)
    {
      if IsBlank(newMessage) {
        return;
      }
      var message := newMessage;
      aiMessages := aiMessages + [UserTurn(message, sentMs)];
      newMessage := "";
      aiLoading := true;
      activityLogs := [AskedEntry(message, sentMs)] + activityLogs;
      // the request settles: the reply on success, the offline text otherwise
      aiMessages := aiMessages + [AssistantTurn(reply, repliedMs)];
      aiLoading := false;
    }

    /** Applying to a job: every recommendation with the id is marked applied
        and stamped; the application is logged once, for the first of them,
        and not at all when no recommendation has the id. */
    method ApplyToJob(jobId: string, nowMs: nat, nowIso: string)
      requires Valid()
      modifies this`jobRecommendations, this`activityLogs
      ensures Valid()
      ensures jobRecommendations == MarkApplied(old(jobRecommendations), jobId, nowIso)
      ensures var found := FindById(old(jobRecommendations), jobId);
        activityLogs == if found.Some? then [AppliedEntry(found.value, nowMs)] + old(activityLogs)
                        else old(activityLogs)
    {
      var found := FindById(jobRecommendations, jobId);
      jobRecommendations := MarkApplied(jobRecommendations, jobId, nowIso);
      if found.Some? {
        activityLogs := [AppliedEntry(found.value, nowMs)] + activityLogs;
      }
    }

    /** "Continue" on a path: the path advances by 10, capped at 100, and each
        path that ends at 100 puts a completion entry on top of the log. */
    method ContinueLearning(pathId: string, nowMs: nat, nowIso: string)
      requires Valid()
      modifies this`learningPaths, this`activityLogs
      ensures Valid()
      ensures learningPaths == AdvancePaths(old(learningPaths), pathId, nowIso)
      ensures activityLogs == CompletionEntries(old(learningPaths), pathId, nowMs) + old(activityLogs)
      ensures AllConsistent(old(learningPaths)) ==> AllConsistent(learningPaths)
    {
      var logs := CompletionEntries(learningPaths, pathId, nowMs);
      learningPaths := AdvancePaths(learningPaths, pathId, nowIso);
      activityLogs := logs + activityLogs;
    }

    /** One refresh pass over paths, recommendations and stats. The three
        requests are awaited in turn and their bodies read in turn; the first
        failure to throw jumps to the catch block, which installs the
        placeholder path and its average. A pass that does not throw replaces
        what came back OK (stats override the computed average) and resets the
        log to one login entry. */
    method RefreshDashboard(signedIn: bool,
                            learning: Response<seq<LearningPath>>,
                            jobs: Response<seq<JobRecommendation>>,
                            stats: Response<Stats>,
                            nowMs: nat, clockText: string)
      requires Valid()
      modifies this`learningPaths, this`averageProgress, this`jobRecommendations,
               this`careerScore, this`activityLogs, this`loading
      ensures Valid()
      ensures !signedIn ==>
        && learningPaths == old(learningPaths) && averageProgress == old(averageProgress)
        && jobRecommendations == old(jobRecommendations) && careerScore == old(careerScore)
        && activityLogs == old(activityLogs) && loading == old(loading)
      ensures signedIn ==> !loading
      ensures signedIn ==>
        jobRecommendations == if JobsReplaced(learning, jobs, stats) then FormatJobs(jobs.body)
                              else old(jobRecommendations)
      ensures signedIn && PassThrows(learning, jobs, stats) ==>
        && learningPaths == [FallbackPath] && averageProgress == Mean(FallbackAverage)
        && careerScore == old(careerScore) && activityLogs == old(activityLogs)
      ensures signedIn && !PassThrows(learning, jobs, stats) ==>
        && learningPaths == (if learning.Ok? then FormatPaths(learning.body) else old(learningPaths))
        && averageProgress == (if stats.Ok? then Mean(stats.body.averageProgress)
                               else if learning.Ok? then AverageProgress(FormatPaths(learning.body))
                               else old(averageProgress))
        && careerScore == (if stats.Ok? then stats.body.careerScore else old(careerScore))
        && activityLogs == [LoginEntry(nowMs, clockText)]
    {
      if !signedIn {
        return;
      }
      // try
      var threw := learning.Rejected? || jobs.Rejected? || stats.Rejected?;
      if !threw {
        match learning {
          case Ok(raw) =>
            learningPaths := FormatPaths(raw);
            averageProgress := AverageProgress(learningPaths);
          case Unreadable => threw := true;
          case _ =>
        }
      }
      if !threw {
        match jobs {
          case Ok(raw) => jobRecommendations := FormatJobs(raw);
          case Unreadable => threw := true;
          case _ =>
        }
      }
      if !threw {
        match stats {
          case Ok(s) =>
            careerScore := s.careerScore;
            averageProgress := Mean(s.averageProgress);
          case Unreadable => threw := true;
          case _ =>
        }
      }
      if !threw {
        activityLogs := [LoginEntry(nowMs, clockText)];
      } else {
        // catch
        learningPaths := [FallbackPath];
        averageProgress := Mean(FallbackAverage);
      }
      // finally
      loading := false;
    }
  }
}
