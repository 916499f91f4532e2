/** The task document: its lifecycle status, the embedded applications, the
    schema defaults a new task receives, what the schema validates on save,
    and the pre-save hook that fixes the deadline when the task is created. */
module TaskModel {
  import opened Common
  import opened UserModel

  type TaskId = nat

  /** Milliseconds in a day. */
  const DayMs: int := 24 * 60 * 60 * 1000

  datatype Status = Open | InProgress | Completed
  datatype Segment = Individual | Company
  datatype Availability = Available | Busy

  /** One application: who applied, when, and whether they said they are busy. */
  datatype Application = Application(freelancerId: UserId, appliedAt: int, availabilityStatus: Availability)

  datatype BudgetRange = BudgetRange(min: int, max: int)

  datatype Task = Task(
    id: TaskId,
    title: string,
    description: string,
    segment: Segment,
    domain: string,
    duration: int,
    budget: real,
    difficulty: int,
    recommendedBudgetRange: BudgetRange,
    clientId: UserId,
    applicants: seq<Application>,
    selectedFreelancerId: Option<UserId>,
    status: Status,
    deadline: Option<int>,
    rating: Option<real>,
    completedOnTime: Option<bool>)

  /** The position of a status along Open -> InProgress -> Completed. */
  function StatusRank(s: Status): nat {
    match s
    case Open => 0
    case InProgress => 1
    case Completed => 2
  }

  const DefaultBudgetRange := BudgetRange(0, 0)

  /** `new Task({...})`: the setters trim the strings; difficulty defaults to 1
      and the range to {0,0} when absent; a new task has no applicants, no
      selected freelancer, status Open, no rating, no on-time flag and, until
      the pre-save hook runs, no deadline. */
  function NewTask(id: TaskId, title: string, description: string, segment: Segment, domain: string,
                   duration: int, budget: real, difficulty: Option<int>, range: Option<BudgetRange>,
                   clientId: UserId): Task {
    Task(id, Trim(title), Trim(description), segment, Trim(domain), duration, budget,
         match difficulty case Some(d) => d case None => 1,
         match range case Some(r) => r case None => DefaultBudgetRange,
         clientId, [], None, Open, None, None, None)
  }

  /** The pre-save hook: only a new document gets deadline = now + duration days. */
  function PreSave(t: Task, isNew: bool, now: int): Task {
    if isNew then t.(deadline := Some(now + t.duration * DayMs)) else t
  }

  /** What saving a task validates: required trimmed strings, duration >= 1,
      budget >= 0, difficulty in {1,2,3}, and a rating, once set, in [1,5]. */
  predicate TaskSchemaValid(t: Task) {
    && t.title != "" && t.description != "" && t.domain != ""
    && t.duration >= 1
    && t.budget >= 0.0
    && t.difficulty in {1, 2, 3}
    && (t.rating.Some? ==> 1.0 <= t.rating.value <= 5.0)
  }

  /** `applicants.some(a => a.freelancerId == uid)`. */
  predicate HasApplied(apps: seq<Application>, uid: UserId) {
    exists i :: 0 <= i < |apps| && apps[i].freelancerId == uid
  }

  predicate NoDuplicateApplicants(apps: seq<Application>) {
    forall i, j :: 0 <= i < j < |apps| ==> apps[i].freelancerId != apps[j].freelancerId
  }

  /** The lifecycle facts every stored task satisfies: its deadline is set; it
      has a selected freelancer exactly when it has left Open, and that
      freelancer applied; the on-time flag is set exactly when it is
      Completed; a rating exists only on a Completed task; nobody applied twice. */
  predicate LifecycleOk(t: Task) {
    && t.deadline.Some?
    && (t.status == Open <==> t.selectedFreelancerId.None?)
    && (t.selectedFreelancerId.Some? ==> HasApplied(t.applicants, t.selectedFreelancerId.value))
    && (t.completedOnTime.Some? <==> t.status == Completed)
    && (t.rating.Some? ==> t.status == Completed)
    && NoDuplicateApplicants(t.applicants)
  }

  /** A freshly created task, once its hook has run, is Open with no
      applicants and satisfies every lifecycle fact; its deadline is
      `duration` days after creation. */
  lemma NewTaskLifecycle(id: TaskId, title: string, description: string, segment: Segment, domain: string,
                         duration: int, budget: real, difficulty: Option<int>, range: Option<BudgetRange>,
                         clientId: UserId, now: int)
    ensures var t := PreSave(NewTask(id, title, description, segment, domain, duration, budget,
                                     difficulty, range, clientId), true, now);
      && LifecycleOk(t) && t.status == Open && t.applicants == []
      && t.deadline == Some(now + duration * DayMs)
      && t.rating.None? && t.completedOnTime.None?
      && t.difficulty == (if difficulty.Some? then difficulty.value else 1)
      && t.recommendedBudgetRange == (if range.Some? then range.value else BudgetRange(0, 0))
  {
  }

  /** Later saves never move the deadline. */
  lemma DeadlineFixedOnLaterSaves(t: Task, created: int, later: int)
    ensures PreSave(PreSave(t, true, created), false, later).deadline == Some(created + t.duration * DayMs)
  {
  }

  /** Appending an application of someone who has not applied keeps the
      applicant list free of duplicates, and they have then applied. */
  lemma AppendKeepsNoDuplicates(apps: seq<Application>, a: Application)
    requires NoDuplicateApplicants(apps) && !HasApplied(apps, a.freelancerId)
    ensures NoDuplicateApplicants(apps + [a])
    ensures HasApplied(apps + [a], a.freelancerId)
  {
    assert (apps + [a])[|apps|] == a;
  }
}
