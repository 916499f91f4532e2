/** The task lifecycle Open -> InProgress -> Completed: creating a task with
    its recommended budget range, applying to it (duplicate check and the
    Company Zone gate), selecting one applicant (which counts an assignment on
    the freelancer's matching profile), and completing it with on-time
    detection. Each operation either fails with a status code and changes
    nothing, or performs its whole update; every stored task keeps the
    lifecycle facts of `LifecycleOk`, and no task status moves backwards. */
module TaskService {
  import opened Common
  import opened UserModel
  import opened TaskModel
  import opened Store
  import opened PricingService

  /** The Company Zone bar: level 3 or more, quality 4 or more, reliability
      85 or more, in the task's domain. */
  predicate MeetsCompanyZone(p: DomainProfile) {
    p.level >= 3 && p.qualityScore >= 4.0 && p.reliabilityScore >= 85.0
  }

  /** `createTask`: difficulty defaults to 1; the recommended range is
      computed from the stored tasks and the raw domain; the task is built
      with the schema's setters and defaults, the pre-save hook sets its
      deadline, and the save validates it (a failed validation is a 500 and
      stores nothing). */
  method CreateTask(db: Database, clientId: UserId, title: string, description: string, segment: Segment,
                    domain: string, duration: int, budget: real, difficulty: Option<int>, now: int)
    returns (r: Result<Task>)
    requires db.Valid()
    modifies db
    ensures db.Valid()
    ensures db.users == old(db.users)
    ensures StatusesForward(old(db.tasks), db.tasks)
    ensures var d := if difficulty.Some? then difficulty.value else 1;
      var range := ComputeBudgetRange(StoredTasks(old(db.tasks), old(db.nextId)), domain, duration, d, budget);
      var t := PreSave(NewTask(old(db.nextId), title, description, segment, domain, duration, budget,
                               Some(d), Some(range), clientId), true, now);
      if TaskSchemaValid(t) then
        r == Ok(t) && old(db.nextId) !in old(db.tasks)
        && db.tasks == old(db.tasks)[t.id := t] && db.nextId == old(db.nextId) + 1
      else
        r == Err(500) && db.tasks == old(db.tasks) && db.nextId == old(db.nextId)
  {
    var d := if difficulty.Some? then difficulty.value else 1;
    var history := StoredTasks(db.tasks, db.nextId);
    var range := ComputeBudgetRange(history, domain, duration, d, budget);
    var task := NewTask(db.nextId, title, description, segment, domain, duration, budget, Some(d), Some(range), clientId);
    task := PreSave(task, true, now);
    if !TaskSchemaValid(task) {
      return Err(500);
    }
    NewTaskLifecycle(db.nextId, title, description, segment, domain, duration, budget, Some(d), Some(range), clientId, now);
    db.tasks := db.tasks[task.id := task];
    db.nextId := db.nextId + 1;
    r := Ok(task);
  }

  /** `applyToTask`: 404 for a missing task, 400 when it is not Open, 409 when
      the freelancer already applied, 403 for a Company task without a profile
      meeting the Company Zone bar, 403 for any task without a profile in its
      domain; otherwise exactly one application (availability defaulting to
      available) is appended and the task saved. */
  method ApplyToTask(db: Database, taskId: TaskId, freelancer: User, availability: Option<Availability>,
                     now: int)
    returns (r: Result<Task>)
    requires db.Valid()
    modifies db
    ensures db.Valid()
    ensures db.users == old(db.users) && db.nextId == old(db.nextId)
    ensures StatusesForward(old(db.tasks), db.tasks)
    ensures r.Err? ==> db.tasks == old(db.tasks)
    ensures taskId !in old(db.tasks) ==> r == Err(404)
    ensures taskId in old(db.tasks) ==>
      var t := old(db.tasks)[taskId];
      var p := GetDomain(freelancer.domains, t.domain);
      && (t.status != Open ==> r == Err(400))
      && (t.status == Open && HasApplied(t.applicants, freelancer.id) ==> r == Err(409))
      && (t.status == Open && !HasApplied(t.applicants, freelancer.id) ==>
            && (p.None? || (t.segment == Company && !MeetsCompanyZone(p.value)) ==> r == Err(403))
            && (p.Some? && (t.segment == Company ==> MeetsCompanyZone(p.value)) ==>
                  var a := Application(freelancer.id, now, if availability.Some? then availability.value else Available);
                  r == Ok(t.(applicants := t.applicants + [a])) && db.tasks == old(db.tasks)[taskId := r.value]))
  {
    if taskId !in db.tasks {
      return Err(404);
    }
    var task := db.tasks[taskId];
    if task.status != Open {
      return Err(400);
    }
    if HasApplied(task.applicants, freelancer.id) {
      return Err(409);
    }
    if task.segment == Company {
      var companyProfile := GetDomain(freelancer.domains, task.domain);
      if companyProfile.None? {
        return Err(403);
      }
      if !MeetsCompanyZone(companyProfile.value) {
        return Err(403);
      }
    }
    var profile := GetDomain(freelancer.domains, task.domain);
    if profile.None? {
      return Err(403);
    }
    var status := if availability.Some? then availability.value else Available;
    var application := Application(freelancer.id, now, status);
    AppendKeepsNoDuplicates(task.applicants, application);
    task := task.(applicants := task.applicants + [application]);
    db.tasks := db.tasks[taskId := task];
    r := Ok(task);
  }

  /** The users collection after a selection: the chosen freelancer's first
      profile matching the domain counts one more assignment; when the user or
      the profile is missing nothing changes. */
  function WithAssignment(users: map<UserId, User>, freelancerId: UserId, domain: string): map<UserId, User> {
    if freelancerId !in users then users
    else
      var u := users[freelancerId];
      match FindDomainIndex(u.domains, domain)
      case None => users
      case Some(i) =>
        users[freelancerId := u.(domains := u.domains[i := u.domains[i].(totalAssigned := u.domains[i].totalAssigned + 1)])]
  }

  /** A selection adds exactly one assignment to exactly one profile, when it
      exists, and changes nothing else: no other user, no other profile, no
      other field, and so no score or level. */
  lemma WithAssignmentFrame(users: map<UserId, User>, freelancerId: UserId, domain: string)
    ensures var after := WithAssignment(users, freelancerId, domain);
      && after.Keys == users.Keys
      && (forall id :: id in users && id != freelancerId ==> after[id] == users[id])
      && (freelancerId in users ==>
            var u, u' := users[freelancerId], after[freelancerId];
            && u'.(domains := u.domains) == u
            && |u'.domains| == |u.domains|
            && (forall j :: 0 <= j < |u.domains| ==>
                  u'.domains[j] == if FindDomainIndex(u.domains, domain) == Some(j)
                                   then u.domains[j].(totalAssigned := u.domains[j].totalAssigned + 1)
                                   else u.domains[j]))
      && (freelancerId !in users || GetDomain(users[freelancerId].domains, domain).None? ==> after == users)
  {
  }

  /** Counting an assignment never breaks a user's schema validity. */
  lemma WithAssignmentKeepsValid(users: map<UserId, User>, freelancerId: UserId, domain: string)
    requires forall id :: id in users ==> UserSchemaValid(users[id])
    ensures var after := WithAssignment(users, freelancerId, domain);
      forall id :: id in after ==> UserSchemaValid(after[id])
  {
    if freelancerId in users {
      var u := users[freelancerId];
      match FindDomainIndex(u.domains, domain)
      case None =>
      case Some(i) =>
        ReplaceProfileKeepsValid(u, i, u.domains[i].(totalAssigned := u.domains[i].totalAssigned + 1));
    }
  }

  /** `selectFreelancer`: 404 for a missing task, 403 for a caller who does not
      own it, 400 when it is not Open, 400 when the freelancer did not apply;
      otherwise the freelancer is selected, the task moves to InProgress, and
      the freelancer's matching profile counts one more assignment. */
  method SelectFreelancer(db: Database, taskId: TaskId, clientId: UserId, freelancerId: UserId)
    returns (r: Result<Task>)
    requires db.Valid()
    modifies db
    ensures db.Valid()
    ensures db.nextId == old(db.nextId)
    ensures StatusesForward(old(db.tasks), db.tasks)
    ensures r.Err? ==> db.tasks == old(db.tasks) && db.users == old(db.users)
    ensures taskId !in old(db.tasks) ==> r == Err(404)
    ensures taskId in old(db.tasks) ==>
      var t := old(db.tasks)[taskId];
      && (t.clientId != clientId ==> r == Err(403))
      && (t.clientId == clientId && t.status != Open ==> r == Err(400))
      && (t.clientId == clientId && t.status == Open && !HasApplied(t.applicants, freelancerId) ==> r == Err(400))
      && (t.clientId == clientId && t.status == Open && HasApplied(t.applicants, freelancerId) ==>
            && r == Ok(t.(selectedFreelancerId := Some(freelancerId), status := InProgress))
            && db.tasks == old(db.tasks)[taskId := r.value]
            && db.users == WithAssignment(old(db.users), freelancerId, t.domain))
  {
    if taskId !in db.tasks {
      return Err(404);
    }
    var task := db.tasks[taskId];
    if task.clientId != clientId {
      return Err(403);
    }
    if task.status != Open {
      return Err(400);
    }
    if !HasApplied(task.applicants, freelancerId) {
      return Err(400);
    }
    task := task.(selectedFreelancerId := Some(freelancerId), status := InProgress);
    db.tasks := db.tasks[taskId := task];
    WithAssignmentKeepsValid(db.users, freelancerId, task.domain);
    WithAssignmentFrame(db.users, freelancerId, task.domain);
    CountAssignment(db, freelancerId, task.domain);
    r := Ok(task);
  }

  /** The profile update of `selectFreelancer`: load the freelancer, find the
      first profile matching the domain, count one more assignment on it and
      save the user; a missing user or profile is skipped. */
  method CountAssignment(db: Database, freelancerId: UserId, domain: string)
    modifies db
    ensures db.users == WithAssignment(old(db.users), freelancerId, domain)
    ensures db.tasks == old(db.tasks) && db.nextId == old(db.nextId)
  {
    if freelancerId in db.users {
      var freelancer := db.users[freelancerId];
      var found := FindDomainIndex(freelancer.domains, domain);
      if found.Some? {
        var i := found.value;
        var profile := freelancer.domains[i];
        profile := profile.(totalAssigned := profile.totalAssigned + 1);
        freelancer := freelancer.(domains := freelancer.domains[i := profile]);
        db.users := db.users[freelancerId := freelancer];
      }
    }
  }

  /** `completeTask`: 404 for a missing task; a task with nobody selected
      (still Open) fails inside the handler with a 500; 403 for anyone but the
      selected freelancer, 400 unless InProgress; otherwise the on-time flag
      records whether `now` is at or before the deadline and the task is
      Completed. */
  method CompleteTask(db: Database, taskId: TaskId, freelancerId: UserId, now: int)
    returns (r: Result<Task>)
    requires db.Valid()
    modifies db
    ensures db.Valid()
    ensures db.users == old(db.users) && db.nextId == old(db.nextId)
    ensures StatusesForward(old(db.tasks), db.tasks)
    ensures r.Err? ==> db.tasks == old(db.tasks)
    ensures taskId !in old(db.tasks) ==> r == Err(404)
    ensures taskId in old(db.tasks) ==>
      var t := old(db.tasks)[taskId];
      && (t.selectedFreelancerId.None? ==> r == Err(500))
      && (t.selectedFreelancerId.Some? && t.selectedFreelancerId.value != freelancerId ==> r == Err(403))
      && (t.selectedFreelancerId == Some(freelancerId) && t.status != InProgress ==> r == Err(400))
      && (t.selectedFreelancerId == Some(freelancerId) && t.status == InProgress ==>
            && r == Ok(t.(completedOnTime := Some(now <= t.deadline.value), status := Completed))
            && db.tasks == old(db.tasks)[taskId := r.value])
  {
    if taskId !in db.tasks {
      return Err(404);
    }
    var task := db.tasks[taskId];
    if task.selectedFreelancerId.None? {
      return Err(500);
    }
    if task.selectedFreelancerId.value != freelancerId {
      return Err(403);
    }
    if task.status != InProgress {
      return Err(400);
    }
    task := task.(completedOnTime := Some(now <= task.deadline.value), status := Completed);
    db.tasks := db.tasks[taskId := task];
    r := Ok(task);
  }
}
