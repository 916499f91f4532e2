/** Domain-scoped reputation: folding one client rating into a freelancer's
    profile for the task's domain, and the level the profile's statistics
    earn. */
module RatingService {
  import opened Common
  import opened UserModel
  import opened Store

  /** `calculateLevel`: tiers tested from the top, first match wins. The tiers
      are nested, so each "at least" level has a single condition. */
  function CalculateLevel(p: DomainProfile): (level: int)
    ensures 1 <= level <= 4
    ensures level >= 2 <==> p.completedTasks >= 5
    ensures level >= 3 <==> p.completedTasks >= 15 && p.qualityScore >= 4.0 && p.reliabilityScore >= 85.0
    ensures level == 4 <==> p.completedTasks >= 30 && p.qualityScore >= 4.5 && p.reliabilityScore >= 90.0
  {
    if p.completedTasks >= 30 && p.qualityScore >= 4.5 && p.reliabilityScore >= 90.0 then 4
    else if p.completedTasks >= 15 && p.qualityScore >= 4.0 && p.reliabilityScore >= 85.0 then 3
    else if p.completedTasks >= 5 then 2
    else 1
  }

  /** Raising completed tasks, quality or reliability never lowers the level. */
  lemma LevelMonotone(p: DomainProfile, q: DomainProfile)
    requires p.completedTasks <= q.completedTasks
    requires p.qualityScore <= q.qualityScore && p.reliabilityScore <= q.reliabilityScore
    ensures CalculateLevel(p) <= CalculateLevel(q)
  {
  }

  /** The denominator of reliability: assignments, or completions when nothing
      was ever recorded as assigned. */
  function AssignedCount(p: DomainProfile): nat {
    if p.totalAssigned != 0 then p.totalAssigned else p.completedTasks
  }

  /** The profile `applyRating` leaves behind after one rating. */
  function Rated(p: DomainProfile, rating: real, onTime: bool): DomainProfile {
    var completed := p.completedTasks + 1;
    var sum := p.ratingSum + rating;
    var onTimeCount := if onTime then p.onTimeCompletions + 1 else p.onTimeCompletions;
    var denominator := AssignedCount(p.(completedTasks := completed));
    var scored := p.(completedTasks := completed, ratingSum := sum,
                     qualityScore := Round2(sum / completed as real),
                     onTimeCompletions := onTimeCount,
                     reliabilityScore := Round2(onTimeCount as real / denominator as real * 100.0));
    scored.(level := CalculateLevel(scored))
  }

  /** What `applyRating` answers and the users collection it leaves: a
      missing freelancer is a 404, a freelancer without a profile for the
      domain a 400; otherwise the first matching profile takes the rating and
      the user is saved. The save validates the schema bounds: a profile pushed
      out of them (for example reliability above 100 when on-time completions
      outnumber assignments) is refused with a 500 and nothing is stored. */
  function RatingOutcome(users: map<UserId, User>, freelancerId: UserId, domain: string, rating: real,
                         onTime: bool): (Result<DomainProfile>, map<UserId, User>)
  {
    if freelancerId !in users then (Err(404), users)
    else
      var u := users[freelancerId];
      match FindDomainIndex(u.domains, domain)
      case None => (Err(400), users)
      case Some(i) =>
        var u' := u.(domains := u.domains[i := Rated(u.domains[i], rating, onTime)]);
        if UserSchemaValid(u') then (Ok(u'.domains[i]), users[freelancerId := u'])
        else (Err(500), users)
  }

  /** `applyRating`, step by step on the profile as the source does it. */
  method ApplyRating(db: Database, freelancerId: UserId, domain: string, rating: real, onTime: bool)
    returns (r: Result<DomainProfile>)
    requires db.Valid()
    modifies db
    ensures db.Valid()
    ensures db.tasks == old(db.tasks) && db.nextId == old(db.nextId)
    ensures (r, db.users) == RatingOutcome(old(db.users), freelancerId, domain, rating, onTime)
  {
    if freelancerId !in db.users {
      return Err(404);
    }
    var user := db.users[freelancerId];
    var found := FindDomainIndex(user.domains, domain);
    if found.None? {
      return Err(400);
    }
    var i := found.value;
    var profile := user.domains[i];

    profile := profile.(completedTasks := profile.completedTasks + 1);
    profile := profile.(ratingSum := profile.ratingSum + rating);
    profile := profile.(qualityScore := Round2(profile.ratingSum / profile.completedTasks as real));
    if onTime {
      profile := profile.(onTimeCompletions := profile.onTimeCompletions + 1);
    }
    var assignedCount := AssignedCount(profile);
    profile := profile.(reliabilityScore := Round2(profile.onTimeCompletions as real / assignedCount as real * 100.0));
    profile := profile.(level := CalculateLevel(profile));

    var updated := user.(domains := user.domains[i := profile]);
    if !UserSchemaValid(updated) {
      return Err(500);
    }
    db.users := db.users[freelancerId := updated];
    r := Ok(profile);
  }

  /** One rating adds one completed task and exactly the rating to the sum,
      counts an on-time completion only when on time, and leaves the name,
      assignments, cancellations and boost expiry alone. */
  lemma RatedCounters(p: DomainProfile, rating: real, onTime: bool)
    ensures var q := Rated(p, rating, onTime);
      && q.completedTasks == p.completedTasks + 1
      && q.ratingSum == p.ratingSum + rating
      && q.onTimeCompletions == p.onTimeCompletions + (if onTime then 1 else 0)
      && q.domainName == p.domainName && q.totalAssigned == p.totalAssigned
      && q.cancellations == p.cancellations && q.beginnerBoostExpiresAt == p.beginnerBoostExpiresAt
      && q.level == CalculateLevel(q)
  {
  }

  /** A failed update changes nothing. A successful one changes only the
      rated freelancer, and of that freelancer only the first profile matching
      the domain: the other profiles and the identity fields stay, and the
      returned profile is the stored one. */
  lemma RatingOutcomeFrame(users: map<UserId, User>, freelancerId: UserId, domain: string, rating: real,
                           onTime: bool)
    ensures var (r, after) := RatingOutcome(users, freelancerId, domain, rating, onTime);
      && (r.Err? ==> after == users)
      && (r.Ok? ==>
            && freelancerId in users
            && after.Keys == users.Keys
            && (forall id :: id in users && id != freelancerId ==> after[id] == users[id])
            && var u, u' := users[freelancerId], after[freelancerId];
               && u'.(domains := u.domains) == u
               && |u'.domains| == |u.domains|
               && exists i :: 0 <= i < |u.domains| && FindDomainIndex(u.domains, domain) == Some(i)
                    && u'.domains[i] == r.value == Rated(u.domains[i], rating, onTime)
                    && forall j :: 0 <= j < |u.domains| && j != i ==> u'.domains[j] == u.domains[j])
  {
    var (r, after) := RatingOutcome(users, freelancerId, domain, rating, onTime);
    if r.Ok? {
      var i := FindDomainIndex(users[freelancerId].domains, domain).value;
      assert after[freelancerId].domains[i] == r.value;
    }
  }

  /** A valid rating of a profile whose history is consistent, and whose
      on-time completions will not outnumber the assigned count, always
      succeeds: the save never refuses it. */
  lemma RatingSucceeds(users: map<UserId, User>, freelancerId: UserId, domain: string, rating: real,
                       onTime: bool)
    requires freelancerId in users && UserSchemaValid(users[freelancerId])
    requires FindDomainIndex(users[freelancerId].domains, domain).Some?
    requires var p := users[freelancerId].domains[FindDomainIndex(users[freelancerId].domains, domain).value];
      RatingSumConsistent(p) && 1.0 <= rating <= 5.0
      && Rated(p, rating, onTime).onTimeCompletions <= AssignedCount(Rated(p, rating, onTime))
    ensures RatingOutcome(users, freelancerId, domain, rating, onTime).0.Ok?
  {
    var u := users[freelancerId];
    var i := FindDomainIndex(u.domains, domain).value;
    RatedQualityInRange(u.domains[i], rating, onTime);
    RatedReliabilityInRange(u.domains[i], rating, onTime);
    ReplaceProfileKeepsValid(u, i, Rated(u.domains[i], rating, onTime));
  }

  /** The rating history a profile can have had: every rating was in [1,5]. */
  predicate RatingSumConsistent(p: DomainProfile) {
    p.completedTasks as real <= p.ratingSum <= 5.0 * p.completedTasks as real
  }

  /** A rating in [1,5] keeps the sum consistent, and quality, the rounded
      average, then lies in [1,5]. */
  lemma RatedQualityInRange(p: DomainProfile, rating: real, onTime: bool)
    requires RatingSumConsistent(p) && 1.0 <= rating <= 5.0
    ensures var q := Rated(p, rating, onTime);
      && RatingSumConsistent(q)
      && q.qualityScore == Round2(q.ratingSum / q.completedTasks as real)
      && 1.0 <= q.qualityScore <= 5.0
  {
    var q := Rated(p, rating, onTime);
    var c := q.completedTasks as real;
    var avg := q.ratingSum / c;
    DivBounds(q.ratingSum, c, 1.0, 5.0);
    Round2Within(avg, 1, 5);
  }

  /** Reliability is the rounded on-time percentage of the assigned count, and
      it lies in [0,100] whenever on-time completions do not exceed that count. */
  lemma RatedReliabilityInRange(p: DomainProfile, rating: real, onTime: bool)
    requires var q := Rated(p, rating, onTime); q.onTimeCompletions <= AssignedCount(q)
    ensures var q := Rated(p, rating, onTime);
      && AssignedCount(q) > 0
      && q.reliabilityScore == Round2(q.onTimeCompletions as real / AssignedCount(q) as real * 100.0)
      && 0.0 <= q.reliabilityScore <= 100.0
  {
    var q := Rated(p, rating, onTime);
    var a := AssignedCount(q) as real;
    var x := q.onTimeCompletions as real / a;
    DivBounds(q.onTimeCompletions as real, a, 0.0, 1.0);
    Round2Within(x * 100.0, 0, 100);
  }

  /** One client rating, as the rate route passes it on. */
  datatype RatingEvent = RatingEvent(rating: real, onTime: bool)

  /** The profile after a sequence of ratings, applied in order. */
  function RateAll(p: DomainProfile, events: seq<RatingEvent>): DomainProfile
    decreases |events|
  {
    if events == [] then p
    else var last := events[|events| - 1];
         Rated(RateAll(p, events[..|events| - 1]), last.rating, last.onTime)
  }

  function SumRatings(events: seq<RatingEvent>): real
    decreases |events|
  {
    if events == [] then 0.0 else SumRatings(events[..|events| - 1]) + events[|events| - 1].rating
  }

  function CountOnTime(events: seq<RatingEvent>): nat
    decreases |events|
  {
    if events == [] then 0
    else CountOnTime(events[..|events| - 1]) + (if events[|events| - 1].onTime then 1 else 0)
  }

  predicate AllValidRatings(events: seq<RatingEvent>) {
    forall k :: 0 <= k < |events| ==> 1.0 <= events[k].rating <= 5.0
  }

  /** Starting from a fresh profile, any sequence of ratings in [1,5] leaves
      completed tasks equal to their number, the rating sum equal to their
      total, quality equal to their average rounded to two decimals and inside
      [1,5] (once there is a rating), on-time completions equal to the on-time
      ones, and the profile inside the schema's bounds, so that every save of
      `applyRating` along the way succeeds. While the freelancer was never
      counted as assigned, reliability is the rounded on-time percentage. */
  lemma {:induction false} RateAllFromFresh(name: string, now: int, events: seq<RatingEvent>)
    requires Trim(name) != "" && AllValidRatings(events)
    ensures var q := RateAll(DefaultDomainProfile(name, now), events);
      && q.completedTasks == |events|
      && q.ratingSum == SumRatings(events)
      && q.onTimeCompletions == CountOnTime(events)
      && q.onTimeCompletions <= q.completedTasks
      && q.totalAssigned == 0
      && RatingSumConsistent(q)
      && ProfileInBounds(q)
      && (|events| > 0 ==>
            && q.qualityScore == Round2(SumRatings(events) / |events| as real)
            && 1.0 <= q.qualityScore <= 5.0
            && q.reliabilityScore == Round2(CountOnTime(events) as real / |events| as real * 100.0))
    decreases |events|
  {
    if events != [] {
      var init := events[..|events| - 1];
      var last := events[|events| - 1];
      assert AllValidRatings(init) by {
        forall k | 0 <= k < |init| ensures 1.0 <= init[k].rating <= 5.0 {
          assert init[k] == events[k];
        }
      }
      RateAllFromFresh(name, now, init);
      var p := RateAll(DefaultDomainProfile(name, now), init);
      RatedQualityInRange(p, last.rating, last.onTime);
      RatedReliabilityInRange(p, last.rating, last.onTime);
    }
  }

  /** The level is recomputed from scratch, so it can fall: 15 tasks averaging
      4.0 hold level 3, and a single 1-star rating brings quality to 3.81 and
      the level back to 2. */
  lemma LevelCanDrop()
    ensures var p := DomainProfile("Web Development", 4.0, 100.0, 3, 15, 0, 0, 15, 16, 60.0);
      && CalculateLevel(p) == 3
      && Rated(p, 1.0, true).qualityScore == 3.81
      && Rated(p, 1.0, true).level == 2
  {
    var p := DomainProfile("Web Development", 4.0, 100.0, 3, 15, 0, 0, 15, 16, 60.0);
    assert 61.0 / 16.0 * 100.0 == 381.25;
    assert Round(381.25) == 381;
  }

  /** Five assignments (the fifth task's selection already counted), four
      tasks with a rating sum of 16, all on time, then a fifth 5-star on-time
      rating: quality 4.2, reliability 100, and the profile crosses into
      level 2 at exactly five completed tasks. */
  lemma FifthRatingReachesLevel2()
    ensures var p := DomainProfile("Design", 4.0, 100.0, 1, 4, 0, 0, 4, 5, 16.0);
      var q := Rated(p, 5.0, true);
      && q.completedTasks == 5 && q.ratingSum == 21.0 && q.qualityScore == 4.2
      && q.onTimeCompletions == 5 && q.reliabilityScore == 100.0 && q.level == 2
  {
    assert 21.0 / 5.0 * 100.0 == 420.0;
    assert Round(420.0) == 420;
    assert 5.0 / 5.0 * 100.0 * 100.0 == 10000.0;
    assert Round(10000.0) == 10000;
  }
}
