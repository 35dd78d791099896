/** The records the dashboard holds in its state, and the ways a request to the
    backend can settle. Times are milliseconds since the epoch (Date.now());
    ISO-8601 text (toISOString) is carried as a string supplied by the caller. */
module Records {

  datatype Option<T> = None | Some(value: T)

  /** How one request settled, as the handler observes it. */
  datatype Response<T> =
    | Ok(body: T)   // response.ok, and reading the JSON body gave `body`
    | NotOk         // a non-2xx status; the body is never read
    | Unreadable    // response.ok, but reading or destructuring the body threw
    | Rejected      // fetch itself threw (network failure)

  datatype Status = NotStarted | InProgress | Completed

  datatype LearningPath = LearningPath(
    id: string,
    title: string,
    description: string,
    progress: int,
    estimatedTime: string,
    difficulty: string,
    skills: seq<string>,
    status: Status,
    lastAccessed: Option<string>)

  datatype Employment = Job | Internship

  /** `applied` absent in a backend record reads as false. */
  datatype JobRecommendation = JobRecommendation(
    id: string,
    title: string,
    company: string,
    location: string,
    salary: string,
    matchScore: int,
    skills: seq<string>,
    platform: string,
    kind: Employment,
    applied: bool,
    appliedAt: Option<string>)

  datatype Role = User | Assistant

  datatype AIMessage = AIMessage(id: string, role: Role, content: string, timestamp: nat)

  datatype ActivityKind = CourseCompleted | JobApplied | CertificateEarned | AiInteraction | Login

  /** The icon half of an entry's presentation tag; the colour half is its class name. */
  datatype Icon = LogOutIcon | BotIcon | BriefcaseIcon | GraduationCapIcon

  datatype ActivityEntry = ActivityEntry(
    id: string,
    kind: ActivityKind,
    title: string,
    description: string,
    timestamp: nat,
    icon: Icon,
    color: string)

  datatype OpportunityKind = JobOpening | InternshipOpening | Hackathon

  datatype LiveOpportunity = LiveOpportunity(
    id: string,
    title: string,
    company: string,
    location: string,
    kind: OpportunityKind,
    postedDate: string,
    applyUrl: string,
    tags: seq<string>,
    description: string,
    salary: Option<string>,
    prizeMoney: Option<string>,
    deadline: Option<string>,
    platform: string)

  /** The live-opportunities state: three collections and one timestamp. */
  datatype Snapshot = Snapshot(
    jobs: seq<LiveOpportunity>,
    internships: seq<LiveOpportunity>,
    hackathons: seq<LiveOpportunity>,
    lastUpdated: Option<string>)

  /** The body of the dashboard-stats response. */
  datatype Stats = Stats(careerScore: int, averageProgress: int)

  /** The average-progress figure; Math.round of 0/0 is NaN. */
  datatype Average = Mean(value: int) | NaN
}
