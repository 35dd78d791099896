/** Sessions driven through a few typical uses of the dashboard. Each method
    builds a fresh session, calls the handlers, and reports what a reader of
    the state would see; its postcondition follows from Session's contracts
    and the lemmas of the other modules. */
module Scenarios {
  import opened Records
  import opened JsText
  import opened LearningPaths
  import opened Assistant
  import opened Dashboard

  /** With no paths yet, a refresh whose paths request rejects leaves exactly
      the placeholder path at 35% and an average of 35, whatever the other two
      requests do. */
  method FailedFirstRefresh(greeting: string, jobs: Response<seq<JobRecommendation>>,
                            stats: Response<Stats>, nowMs: nat, clockText: string)
    returns (paths: seq<LearningPath>, average: Average)
    ensures |paths| == 1 && paths[0].progress == 35 && paths[0].status == InProgress
    ensures average == Mean(35)
  {
    var session := new Session(greeting, nowMs);
    session.RefreshDashboard(true, Rejected, jobs, stats, nowMs, clockText);
    paths, average := session.learningPaths, session.averageProgress;
  }

  /** Adding "Data Engineering" appends one not-started path with no skills at
      the end of the list and empties the form. */
  method AddDataEngineering(greeting: string, nowMs: nat, nowIso: string)
    returns (paths: seq<LearningPath>, titleAfter: string)
    ensures |paths| == 1
    ensures paths[0].title == "Data Engineering" && paths[0].description == "Learn ETL"
    ensures paths[0].difficulty == "Intermediate" && paths[0].progress == 0
    ensures paths[0].status == NotStarted && paths[0].skills == []
    ensures titleAfter == ""
  {
    var session := new Session(greeting, nowMs);
    session.EditAddPathForm("Data Engineering", "Learn ETL", "Intermediate");
    assert !IsBlank("Data Engineering") && !IsBlank("Learn ETL");
    session.AddLearningPath(nowMs, nowIso);
    paths, titleAfter := session.learningPaths, session.newPathTitle;
  }

  /** A blank title is refused: nothing is added and the form is kept. */
  method AddBlankTitle(greeting: string, nowMs: nat, nowIso: string)
    returns (paths: seq<LearningPath>, descriptionAfter: string)
    ensures paths == [] && descriptionAfter == "Learn ETL"
  {
    var session := new Session(greeting, nowMs);
    session.EditAddPathForm(" \t", "Learn ETL", "Advanced");
    BlankIffAllWhitespace(" \t");
    session.AddLearningPath(nowMs, nowIso);
    paths, descriptionAfter := session.learningPaths, session.newPathDescription;
  }

  /** A question sent while the assistant is offline: the transcript gains
      the question and the offline text, and the log quotes the question. */
  method OfflineQuestion(greeting: string, failure: Response<string>, sentMs: nat, repliedMs: nat)
    returns (transcript: seq<AIMessage>, logged: seq<ActivityEntry>)
    requires !failure.Ok?
    ensures |transcript| == 3
    ensures transcript[1].role == User
    ensures transcript[1].content == "What skills do I need for backend roles?"
    ensures transcript[2].role == Assistant && transcript[2].content == OfflineReply
    ensures |logged| == 1 && logged[0].kind == AiInteraction
    ensures logged[0].description == AskedPrefix + "What skills do I need for backend roles?" + "\""
  {
    var session := new Session(greeting, sentMs);
    var question := "What skills do I need for backend roles?";
    session.EditMessage(question);
    BackendQuestionDescription();
    session.SendMessage(sentMs, repliedMs, failure);
    transcript, logged := session.aiMessages, session.activityLogs;
  }

  /** The question of the offline scenario is short and has no surrounding
      whitespace, so the log quotes it whole. */
  lemma BackendQuestionDescription()
    ensures !IsBlank("What skills do I need for backend roles?")
    ensures AskedDescription("What skills do I need for backend roles?")
            == AskedPrefix + "What skills do I need for backend roles?" + "\""
  {
    var question := "What skills do I need for backend roles?";
    assert TrimStart(question) == question && TrimEnd(question) == question;
  }

  /** A snapshot of one job, no internships and two hackathons stamped "T1"
      survives a later refresh that fails. */
  method StaleSnapshotKept(greeting: string, j1: LiveOpportunity, h1: LiveOpportunity,
                           h2: LiveOpportunity, failure: Response<Snapshot>, nowMs: nat)
    returns (jobs: nat, internships: nat, hackathons: nat, lastUpdated: Option<string>)
    requires !failure.Ok?
    ensures jobs == 1 && internships == 0 && hackathons == 2 && lastUpdated == Some("T1")
  {
    var session := new Session(greeting, nowMs);
    session.FetchLiveOpportunities(true, Ok(Snapshot([j1], [], [h1, h2], Some("T1"))));
    session.FetchLiveOpportunities(true, failure);
    var snapshot := session.liveOpportunities;
    jobs, internships, hackathons := |snapshot.jobs|, |snapshot.internships|, |snapshot.hackathons|;
    lastUpdated := snapshot.lastUpdated;
  }

  /** Finishing a course from 95%: the path reaches 100 and is completed, and
      one "Finished" entry tops the log; clicking again keeps it at 100 and
      logs a second entry. */
  method FinishCourse(greeting: string, path: LearningPath, nowMs: nat, nowIso: string)
    returns (progress: int, status: Status, logged: seq<ActivityEntry>)
    requires path.progress == 95
    ensures progress == 100 && status == Completed
    ensures |logged| == 3 && logged[0] == logged[1]
    ensures logged[0].description == "Finished " + path.title
  {
    var session := new Session(greeting, nowMs);
    session.RefreshDashboard(true, Ok([path]), NotOk, NotOk, nowMs, "10:00:00");
    CompletionOfUniquePath(session.learningPaths, 0, nowMs);
    session.ContinueLearning(path.id, nowMs, nowIso);
    CompletionOfUniquePath(session.learningPaths, 0, nowMs);
    session.ContinueLearning(path.id, nowMs, nowIso);
    progress, status := session.learningPaths[0].progress, session.learningPaths[0].status;
    logged := session.activityLogs;
  }
}
