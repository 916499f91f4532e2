/** The rules the task routes add around the services: the guards of the
    rate route and its hand-off to the rating update, the note on the client's
    budget against the recommended range, the summaries `my-domains` derives
    from the profiles, who may read a task's detail, who may post on its
    message thread, and the applicant listing around the ranking. */
module TaskRoutes {
  import opened Common
  import opened UserModel
  import opened TaskModel
  import opened Store
  import opened RatingService
  import opened MatchingService
  import opened PricingService

  // ---------------------------------------------------------------- rating

  /** `POST /rate/:taskId`: 400 unless a rating in [1,5] was sent, before any
      lookup; then 404 for a missing task, 403 for a caller who does not own
      it, 400 unless Completed, 409 when it already has a rating. Otherwise the
      rating is stored on the task and then folded into the selected
      freelancer's profile for the task's domain, on-time as the task
      recorded; an error of that second step is the route's answer, and the
      task stays rated. */
  method RateTask(db: Database, taskId: TaskId, clientId: UserId, rating: Option<real>)
    returns (r: Result<DomainProfile>)
    requires db.Valid()
    modifies db
    ensures db.Valid()
    ensures db.nextId == old(db.nextId)
    ensures StatusesForward(old(db.tasks), db.tasks)
    ensures rating.None? || !(1.0 <= rating.value <= 5.0) ==>
      r == Err(400) && db.tasks == old(db.tasks) && db.users == old(db.users)
    ensures rating.Some? && 1.0 <= rating.value <= 5.0 ==>
      && (taskId !in old(db.tasks) ==> r == Err(404) && db.tasks == old(db.tasks) && db.users == old(db.users))
      && (taskId in old(db.tasks) ==>
            var t := old(db.tasks)[taskId];
            && (t.clientId != clientId ==> r == Err(403) && db.tasks == old(db.tasks) && db.users == old(db.users))
            && (t.clientId == clientId && t.status != Completed ==>
                  r == Err(400) && db.tasks == old(db.tasks) && db.users == old(db.users))
            && (t.clientId == clientId && t.status == Completed && t.rating.Some? ==>
                  r == Err(409) && db.tasks == old(db.tasks) && db.users == old(db.users))
            && (t.clientId == clientId && t.status == Completed && t.rating.None? ==>
                  && db.tasks == old(db.tasks)[taskId := t.(rating := rating)]
                  && (r, db.users) == RatingOutcome(old(db.users), t.selectedFreelancerId.value, t.domain,
                                                    rating.value, t.completedOnTime == Some(true))))
  {
    if rating.None? || rating.value < 1.0 || rating.value > 5.0 {
      return Err(400);
    }
    if taskId !in db.tasks {
      return Err(404);
    }
    var task := db.tasks[taskId];
    if task.clientId != clientId {
      return Err(403);
    }
    if task.status != Completed {
      return Err(400);
    }
    if task.rating.Some? {
      return Err(409);
    }
    task := task.(rating := rating);
    db.tasks := db.tasks[taskId := task];
    r := ApplyRating(db, task.selectedFreelancerId.value, task.domain, rating.value, task.completedOnTime.value);
  }

  // ---------------------------------------------------------------- pricing note

  datatype PricingNote = BelowRange | AboveRange | WithinRange

  /** The note on the client's budget: below the range, above it, or within
      it, tested in that order. */
  function NoteFor(budget: real, range: BudgetRange): (n: PricingNote)
    ensures n == BelowRange <==> budget < range.min as real
    ensures n == AboveRange <==> range.min as real <= budget && range.max as real < budget
    ensures n == WithinRange <==> range.min as real <= budget <= range.max as real
  {
    if budget < range.min as real then BelowRange
    else if budget > range.max as real then AboveRange
    else WithinRange
  }

  /** A client who offers the rounded centre of the recommendation is told
      the budget is within range. */
  lemma CentreIsWithinRange(history: seq<Task>, domain: string, duration: int, difficulty: int)
    requires duration >= 0
    ensures var centre := Round(Adjusted(history, domain, duration, difficulty));
      NoteFor(centre as real, ComputeBudgetRange(history, domain, duration, difficulty, centre as real)) == WithinRange
  {
    AdjustedNonNegative(history, domain, duration, difficulty);
  }

  // ---------------------------------------------------------------- my-domains

  /** One entry of the `my-domains` answer. */
  datatype DomainSummary = DomainSummary(
    domainName: string,
    level: int,
    qualityScore: real,
    reliabilityScore: real,
    completedTasks: nat,
    isBeginnerBoostActive: bool,
    beginnerBoostExpiresAt: int,
    isBeginner: bool)

  function Summarize(p: DomainProfile, now: int): DomainSummary {
    DomainSummary(p.domainName, p.level, p.qualityScore, p.reliabilityScore, p.completedTasks,
                  now < p.beginnerBoostExpiresAt, p.beginnerBoostExpiresAt, p.completedTasks < 3)
  }

  /** `my-domains`: one summary per profile, in order; a beginner has fewer
      than three completed tasks, and the boost is active while `now` is
      before its expiry. */
  function MyDomains(domains: seq<DomainProfile>, now: int): (s: seq<DomainSummary>)
    ensures |s| == |domains|
    ensures forall i :: 0 <= i < |s| ==>
      && s[i].domainName == domains[i].domainName && s[i].level == domains[i].level
      && s[i].qualityScore == domains[i].qualityScore && s[i].reliabilityScore == domains[i].reliabilityScore
      && s[i].completedTasks == domains[i].completedTasks
      && s[i].beginnerBoostExpiresAt == domains[i].beginnerBoostExpiresAt
      && (s[i].isBeginner <==> domains[i].completedTasks < 3)
      && (s[i].isBeginnerBoostActive <==> now < domains[i].beginnerBoostExpiresAt)
    decreases |domains|
  {
    if domains == [] then [] else [Summarize(domains[0], now)] + MyDomains(domains[1..], now)
  }

  /** The boost flag shown to the freelancer is the condition the ranking
      uses: while it is shown active, a profile below level 4 gets a skill
      match above its level's base; once it is shown inactive, the base. */
  lemma BoostFlagMatchesRanking(p: DomainProfile, now: int)
    ensures Summarize(p, now).isBeginnerBoostActive && p.level != 4 ==> SkillMatch(p, now) > BaseSkill(p.level)
    ensures !Summarize(p, now).isBeginnerBoostActive ==> SkillMatch(p, now) == BaseSkill(p.level)
  {
  }

  // ---------------------------------------------------------------- task detail

  /** Who may read a task: its client, its selected freelancer, or an
      applicant. */
  predicate CanView(t: Task, uid: UserId) {
    t.clientId == uid || t.selectedFreelancerId == Some(uid) || HasApplied(t.applicants, uid)
  }

  /** `task-detail`: the task for those who may read it, 404 when it does not
      exist, 403 otherwise. */
  function TaskDetail(tasks: map<TaskId, Task>, taskId: TaskId, uid: UserId): (r: Result<Task>)
    ensures r == Err(404) <==> taskId !in tasks
    ensures r == Err(403) <==> taskId in tasks && !CanView(tasks[taskId], uid)
    ensures r.Ok? <==> taskId in tasks && CanView(tasks[taskId], uid)
    ensures r.Ok? ==> r.value == tasks[taskId]
  {
    if taskId in tasks && CanView(tasks[taskId], uid) then Ok(tasks[taskId])
    else if taskId !in tasks then Err(404)
    else Err(403)
  }

  /** For a stored task the selected freelancer is always an applicant, so
      reading is open exactly to the client and the applicants. */
  lemma ViewersAreClientOrApplicants(t: Task, uid: UserId)
    requires LifecycleOk(t)
    ensures CanView(t, uid) <==> t.clientId == uid || HasApplied(t.applicants, uid)
  {
  }

  // ---------------------------------------------------------------- messages

  datatype SenderRole = ClientSender | FreelancerSender

  /** A message as the thread stores it. */
  datatype Message = Message(taskId: TaskId, senderId: UserId, senderName: string, senderRole: SenderRole,
                             text: string)

  /** The message schema's limit on the (trimmed) text. */
  const MaxMessageLength: nat := 2000

  /** What saving a message validates: a sender name (required) and a
      trimmed text of at most 2000 characters. */
  predicate MessageSaves(senderName: string, trimmedText: string) {
    senderName != "" && |trimmedText| <= MaxMessageLength
  }

  /** `POST /:id/messages`: 400 when no text or only white space was sent,
      404 for a missing task, 403 for anyone who is not its client, its
      selected freelancer or an applicant; then `Message.create`, which
      answers 500 when the schema refuses the document; otherwise the
      message to store, its text trimmed, sent as the client exactly when the
      sender is the task's client. */
  function PostMessage(tasks: map<TaskId, Task>, taskId: TaskId, sender: User, text: Option<string>)
    : (r: Result<Message>)
    ensures r == Err(400) <==> text.None? || Blank(text.value)
    ensures text.Some? && !Blank(text.value) ==>
      && (taskId !in tasks ==> r == Err(404))
      && (taskId in tasks && !CanView(tasks[taskId], sender.id) ==> r == Err(403))
      && (taskId in tasks && CanView(tasks[taskId], sender.id) ==>
            if MessageSaves(sender.name, Trim(text.value)) then r.Ok? else r == Err(500))
    ensures r.Ok? ==>
      && r.value.text == Trim(text.value) && r.value.text != "" && |r.value.text| <= MaxMessageLength
      && r.value.taskId == taskId && r.value.senderId == sender.id && r.value.senderName == sender.name
      && (r.value.senderRole == ClientSender <==> tasks[taskId].clientId == sender.id)
  {
    if text.None? then Err(400)
    else
      TrimEmptyIffBlank(text.value);
      if Trim(text.value) == "" then Err(400)
      else if taskId !in tasks then Err(404)
      else
        var t := tasks[taskId];
        var isClient := t.clientId == sender.id;
        if !CanView(t, sender.id) then Err(403)
        else if !MessageSaves(sender.name, Trim(text.value)) then Err(500)
        else Ok(Message(taskId, sender.id, sender.name, if isClient then ClientSender else FreelancerSender,
                        Trim(text.value)))
  }

  // ---------------------------------------------------------------- applicants

  /** The body of the applicant listing. */
  datatype ApplicantList = ApplicantList(taskId: TaskId, domain: string, totalApplicants: nat,
                                         returnedCount: nat, applicants: seq<Ranked>)

  /** `GET /task/:id/applicants`: 404 for a missing task and 403 for a caller
      who does not own it, both before any ranking; otherwise the ranked list
      of the task's applicants, with the raw applicant count, and a returned
      count of at most 10 and at most the raw count. */
  method ListApplicants(tasks: map<TaskId, Task>, users: seq<User>, taskId: TaskId, clientId: UserId, now: int)
    returns (r: Result<ApplicantList>)
    ensures taskId !in tasks ==> r == Err(404)
    ensures taskId in tasks && tasks[taskId].clientId != clientId ==> r == Err(403)
    ensures taskId in tasks && tasks[taskId].clientId == clientId ==>
      var t := tasks[taskId];
      && r.Ok?
      && r.value.applicants == Top10(t.applicants, users, t.domain, now)
      && r.value.totalApplicants == |t.applicants|
      && r.value.returnedCount == |r.value.applicants|
      && r.value.returnedCount <= 10
      && r.value.returnedCount <= r.value.totalApplicants
  {
    if taskId !in tasks {
      return Err(404);
    }
    var task := tasks[taskId];
    if task.clientId != clientId {
      return Err(403);
    }
    var top := GetTop10Applicants(task.applicants, users, task.domain, now);
    Top10Shape(task.applicants, users, task.domain, now);
    Top10NoLongerThanApplicants(task.applicants, users, task.domain, now);
    r := Ok(ApplicantList(taskId, task.domain, |task.applicants|, |top|, top));
  }
}
