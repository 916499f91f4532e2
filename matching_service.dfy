/** Applicant ranking for one task: each applicant who has a profile in the
    task's domain gets a composite score; applicants are split into an
    experienced pool (level 2 and up) and a rookie pool (level 1); each pool is
    sorted by score, highest first, keeping the input order among equal
    scores; and the answer is the best 7 experienced followed by the best 3
    rookies, with no slot of one pool handed to the other. */
module MatchingService {
  import opened Common
  import opened UserModel
  import opened TaskModel

  const TopExperienced: nat := 7
  const TopRookie: nat := 3

  function Min(a: int, b: int): int {
    if a <= b then a else b
  }

  // ---------------------------------------------------------------- scoring

  /** `levelSkillMap[level] || 40`: 40/60/80/100 for levels 1 to 4, else 40. */
  function BaseSkill(level: int): int {
    if level == 2 then 60 else if level == 3 then 80 else if level == 4 then 100 else 40
  }

  /** The skill-match component: the level's base, plus 15 (capped at 100)
      while the beginner boost has not expired. */
  function SkillMatch(p: DomainProfile, now: int): (s: int)
    ensures 40 <= s <= 100
    ensures BaseSkill(p.level) <= s <= BaseSkill(p.level) + 15
    ensures s > BaseSkill(p.level) <==> p.beginnerBoostExpiresAt > now && p.level != 4
    ensures p.beginnerBoostExpiresAt > now && p.level != 4 ==> s == BaseSkill(p.level) + 15
  {
    var base := BaseSkill(p.level);
    if p.beginnerBoostExpiresAt > now then Min(100, base + 15) else base
  }

  /** 100 for an available applicant, 50 for a busy one. */
  function AvailabilityScore(a: Availability): int {
    if a == Available then 100 else 50
  }

  /** `computeFinalScore`: 0.4 of quality scaled to 0..100, 0.3 of
      reliability, 0.2 of skill match and 0.1 of availability, rounded to two
      decimals. With quality in [0,5] and reliability in [0,100] the score is
      in [0,100]. */
  function ComputeFinalScore(p: DomainProfile, a: Availability, now: int): (r: real)
    ensures 0.0 <= p.qualityScore <= 5.0 && 0.0 <= p.reliabilityScore <= 100.0 ==> 0.0 <= r <= 100.0
  {
    var raw := 0.4 * (p.qualityScore / 5.0 * 100.0) + 0.3 * p.reliabilityScore
               + 0.2 * SkillMatch(p, now) as real + 0.1 * AvailabilityScore(a) as real;
    if 0.0 <= p.qualityScore <= 5.0 && 0.0 <= p.reliabilityScore <= 100.0 then
      Round2Within(raw, 0, 100);
      Round2(raw)
    else
      Round2(raw)
  }

  /** Saying "available" never ranks an applicant lower than saying "busy". */
  lemma AvailableNeverScoresLower(p: DomainProfile, now: int)
    ensures ComputeFinalScore(p, Busy, now) <= ComputeFinalScore(p, Available, now)
  {
    var q := 0.4 * (p.qualityScore / 5.0 * 100.0) + 0.3 * p.reliabilityScore + 0.2 * SkillMatch(p, now) as real;
    Round2Monotone(q + 0.1 * 50.0, q + 0.1 * 100.0);
  }

  /** A higher quality score never ranks an applicant lower, all else equal. */
  lemma QualityNeverHurts(p: DomainProfile, better: real, a: Availability, now: int)
    requires p.qualityScore <= better
    ensures ComputeFinalScore(p, a, now) <= ComputeFinalScore(p.(qualityScore := better), a, now)
  {
    var rest := 0.3 * p.reliabilityScore + 0.2 * SkillMatch(p, now) as real + 0.1 * AvailabilityScore(a) as real;
    Round2Monotone(0.4 * (p.qualityScore / 5.0 * 100.0) + rest, 0.4 * (better / 5.0 * 100.0) + rest);
  }

  // ---------------------------------------------------------------- enrichment

  /** An applicant joined with their profile for the task's domain. */
  datatype Ranked = Ranked(
    freelancerId: UserId,
    name: string,
    email: string,
    domainProfile: DomainProfile,
    availabilityStatus: Availability,
    appliedAt: int,
    finalScore: real,
    isRookie: bool,
    isBeginner: bool)

  /** The `userMap` the `forEach` builds: each user under its id, a later
      record with the same id replacing an earlier one. */
  function IndexById(users: seq<User>): (m: map<UserId, User>)
    ensures forall id :: id in m ==> m[id].id == id && m[id] in users
    ensures forall i :: 0 <= i < |users| ==> users[i].id in m
    decreases |users|
  {
    if users == [] then map[]
    else var last := users[|users| - 1];
         IndexById(users[..|users| - 1])[last.id := last]
  }

  /** One applicant enriched, or nothing when the user record is missing or
      has no profile for the domain. */
  function EnrichOne(app: Application, userMap: map<UserId, User>, domain: string, now: int): Option<Ranked> {
    if app.freelancerId !in userMap then None
    else
      var user := userMap[app.freelancerId];
      match GetDomain(user.domains, domain)
      case None => None
      case Some(p) =>
        Some(Ranked(user.id, user.name, user.email, p, app.availabilityStatus, app.appliedAt,
                    ComputeFinalScore(p, app.availabilityStatus, now), p.level == 1, p.completedTasks < 3))
  }

  /** A joined record carries the id, availability and application time of
      the application it came from. */
  predicate FromApplication(x: Ranked, app: Application) {
    && app.freelancerId == x.freelancerId
    && app.availabilityStatus == x.availabilityStatus
    && app.appliedAt == x.appliedAt
  }

  /** A joined record is what an applicant with a known user and a profile in
      the domain turns into: the application's availability and time, the
      user's name and e-mail, the profile `getDomain` finds, and the score of
      that profile under that availability. */
  predicate WellJoined(x: Ranked, apps: seq<Application>, userMap: map<UserId, User>, domain: string, now: int) {
    && (exists i :: 0 <= i < |apps| && FromApplication(x, apps[i]))
    && x.freelancerId in userMap
    && x.name == userMap[x.freelancerId].name && x.email == userMap[x.freelancerId].email
    && GetDomain(userMap[x.freelancerId].domains, domain) == Some(x.domainProfile)
    && x.finalScore == ComputeFinalScore(x.domainProfile, x.availabilityStatus, now)
    && (x.isRookie <==> x.domainProfile.level == 1)
    && (x.isBeginner <==> x.domainProfile.completedTasks < 3)
  }

  /** `applicants.map(...).filter(Boolean)`: unknown users and users without a
      profile for the domain are dropped silently; everyone else is kept, in
      input order (see `EnrichSnoc` and `EnrichKeepsJoinable`). */
  function Enrich(apps: seq<Application>, userMap: map<UserId, User>, domain: string, now: int): (r: seq<Ranked>)
    requires forall id :: id in userMap ==> userMap[id].id == id
    ensures |r| <= |apps|
    ensures forall k :: 0 <= k < |r| ==> WellJoined(r[k], apps, userMap, domain, now)
    ensures (forall k :: 0 <= k < |apps| ==> EnrichOne(apps[k], userMap, domain, now).Some?) ==> |r| == |apps|
    decreases |apps|
  {
    if apps == [] then []
    else
      var rest := Enrich(apps[1..], userMap, domain, now);
      assert forall k :: 0 <= k < |rest| ==> WellJoined(rest[k], apps, userMap, domain, now) by {
        forall k | 0 <= k < |rest| ensures exists i :: 0 <= i < |apps| && FromApplication(rest[k], apps[i]) {
          var j :| 0 <= j < |apps[1..]| && FromApplication(rest[k], apps[1..][j]);
          assert apps[j + 1] == apps[1..][j];
        }
      }
      assert (forall k :: 0 <= k < |apps| ==> EnrichOne(apps[k], userMap, domain, now).Some?) ==>
             (forall k :: 0 <= k < |apps[1..]| ==> EnrichOne(apps[1..][k], userMap, domain, now).Some?) by {
        forall k | 0 <= k < |apps[1..]| ensures apps[1..][k] == apps[k + 1] { }
      }
      match EnrichOne(apps[0], userMap, domain, now)
      case None => rest
      case Some(x) =>
        assert FromApplication(x, apps[0]);
        [x] + rest
  }

  /** Enrichment works applicant by applicant: the join of a concatenation is
      the concatenation of the joins, so input order is kept. */
  lemma {:induction false} EnrichConcat(a: seq<Application>, b: seq<Application>, userMap: map<UserId, User>,
                                        domain: string, now: int)
    requires forall id :: id in userMap ==> userMap[id].id == id
    ensures Enrich(a + b, userMap, domain, now) == Enrich(a, userMap, domain, now) + Enrich(b, userMap, domain, now)
    decreases |a|
  {
    if a == [] {
      assert a + b == b;
    } else {
      assert (a + b)[0] == a[0];
      assert (a + b)[1..] == a[1..] + b;
      EnrichConcat(a[1..], b, userMap, domain, now);
    }
  }

  /** One more applicant adds their joined record at the end, or nothing when
      they do not join. */
  lemma EnrichSnoc(apps: seq<Application>, app: Application, userMap: map<UserId, User>, domain: string, now: int)
    requires forall id :: id in userMap ==> userMap[id].id == id
    ensures var e := EnrichOne(app, userMap, domain, now);
      Enrich(apps + [app], userMap, domain, now)
        == Enrich(apps, userMap, domain, now) + (if e.Some? then [e.value] else [])
  {
    EnrichConcat(apps, [app], userMap, domain, now);
    assert [app][1..] == [];
  }

  /** Every applicant who joins is kept, whatever happens to the others. */
  lemma {:induction false} EnrichKeepsJoinable(apps: seq<Application>, k: nat, userMap: map<UserId, User>,
                                               domain: string, now: int)
    requires forall id :: id in userMap ==> userMap[id].id == id
    requires k < |apps| && EnrichOne(apps[k], userMap, domain, now).Some?
    ensures EnrichOne(apps[k], userMap, domain, now).value in Enrich(apps, userMap, domain, now)
    decreases k
  {
    if k > 0 {
      assert apps[1..][k - 1] == apps[k];
      EnrichKeepsJoinable(apps[1..], k - 1, userMap, domain, now);
    }
  }

  // ---------------------------------------------------------------- pools

  /** The experienced pool, in input order. */
  function Experienced(s: seq<Ranked>): seq<Ranked>
    decreases |s|
  {
    if s == [] then []
    else Experienced(s[..|s| - 1]) + (if s[|s| - 1].isRookie then [] else [s[|s| - 1]])
  }

  /** The rookie pool, in input order. */
  function Rookies(s: seq<Ranked>): seq<Ranked>
    decreases |s|
  {
    if s == [] then []
    else Rookies(s[..|s| - 1]) + (if s[|s| - 1].isRookie then [s[|s| - 1]] else [])
  }

  /** The two pools split the enriched applicants: every one lands in exactly
      one pool. */
  lemma {:induction false} PoolsPartition(s: seq<Ranked>)
    ensures multiset(Experienced(s)) + multiset(Rookies(s)) == multiset(s)
    decreases |s|
  {
    if s != [] {
      var init, last := s[..|s| - 1], s[|s| - 1];
      PoolsPartition(init);
      assert s == init + [last];
    }
  }

  /** Rookies go to the rookie pool and nobody else does. */
  lemma {:induction false} PoolsSeparate(s: seq<Ranked>)
    ensures forall k :: 0 <= k < |Experienced(s)| ==> !Experienced(s)[k].isRookie
    ensures forall k :: 0 <= k < |Rookies(s)| ==> Rookies(s)[k].isRookie
    decreases |s|
  {
    if s != [] {
      PoolsSeparate(s[..|s| - 1]);
    }
  }

  /** Each pool keeps the enriched order: splitting a concatenation splits
      each part. */
  lemma {:induction false} PoolsConcat(a: seq<Ranked>, b: seq<Ranked>)
    ensures Experienced(a + b) == Experienced(a) + Experienced(b)
    ensures Rookies(a + b) == Rookies(a) + Rookies(b)
    decreases |b|
  {
    if b == [] {
      assert a + b == a;
    } else {
      var ab, init, last := a + b, b[..|b| - 1], b[|b| - 1];
      PoolsConcat(a, init);
      assert ab[..|ab| - 1] == a + init;
      assert ab[|ab| - 1] == last;
      assert Experienced(ab) == Experienced(a + init) + (if last.isRookie then [] else [last]);
      assert Rookies(ab) == Rookies(a + init) + (if last.isRookie then [last] else []);
    }
  }

  // ---------------------------------------------------------------- sorting

  /** Inserting x into a list sorted highest first, behind every element that
      scores at least as much: the step of a stable descending sort. */
  function InsertDesc(s: seq<Ranked>, x: Ranked): seq<Ranked>
    decreases |s|
  {
    if s == [] || s[|s| - 1].finalScore >= x.finalScore then s + [x]
    else InsertDesc(s[..|s| - 1], x) + [s[|s| - 1]]
  }

  /** `pool.sort((a, b) => b.finalScore - a.finalScore)`: a stable sort,
      highest score first. */
  function SortDesc(s: seq<Ranked>): seq<Ranked>
    decreases |s|
  {
    if s == [] then [] else InsertDesc(SortDesc(s[..|s| - 1]), s[|s| - 1])
  }

  predicate SortedDesc(s: seq<Ranked>) {
    forall i, j :: 0 <= i < j < |s| ==> s[j].finalScore <= s[i].finalScore
  }

  /** The members of s with score exactly v, in order. */
  function WithScore(s: seq<Ranked>, v: real): seq<Ranked>
    decreases |s|
  {
    if s == [] then []
    else WithScore(s[..|s| - 1], v) + (if s[|s| - 1].finalScore == v then [s[|s| - 1]] else [])
  }

  lemma {:induction false} WithScoreConcat(a: seq<Ranked>, b: seq<Ranked>, v: real)
    ensures WithScore(a + b, v) == WithScore(a, v) + WithScore(b, v)
    decreases |b|
  {
    if b == [] {
      assert a + b == a;
    } else {
      var binit, blast := b[..|b| - 1], b[|b| - 1];
      WithScoreConcat(a, binit, v);
      var ab := a + b;
      assert ab[..|ab| - 1] == a + binit;
      assert ab[|ab| - 1] == blast;
    }
  }

  lemma {:induction false} InsertDescPermutes(s: seq<Ranked>, x: Ranked)
    ensures multiset(InsertDesc(s, x)) == multiset(s) + multiset{x}
    ensures |InsertDesc(s, x)| == |s| + 1
    decreases |s|
  {
    if !(s == [] || s[|s| - 1].finalScore >= x.finalScore) {
      InsertDescPermutes(s[..|s| - 1], x);
      assert s == s[..|s| - 1] + [s[|s| - 1]];
    }
  }

  lemma {:induction false} InsertDescSorted(s: seq<Ranked>, x: Ranked)
    requires SortedDesc(s)
    ensures SortedDesc(InsertDesc(s, x))
    decreases |s|
  {
    if !(s == [] || s[|s| - 1].finalScore >= x.finalScore) {
      var init, last := s[..|s| - 1], s[|s| - 1];
      InsertDescSorted(init, x);
      InsertDescPermutes(init, x);
      var t := InsertDesc(init, x);
      forall i | 0 <= i < |t| ensures last.finalScore <= t[i].finalScore {
        assert t[i] in multiset(t);
        if t[i] != x {
          assert t[i] in multiset(init);
          var k :| 0 <= k < |init| && init[k] == t[i];
          assert s[k] == t[i];
        }
      }
    }
  }

  /** Insertion moves x only past elements that score strictly less. */
  lemma {:induction false} InsertDescStable(s: seq<Ranked>, x: Ranked, v: real)
    ensures WithScore(InsertDesc(s, x), v) == WithScore(s, v) + WithScore([x], v)
    decreases |s|
  {
    if s == [] || s[|s| - 1].finalScore >= x.finalScore {
      WithScoreConcat(s, [x], v);
    } else {
      var init, last := s[..|s| - 1], s[|s| - 1];
      var t := InsertDesc(init, x);
      calc {
        WithScore(InsertDesc(s, x), v);
        WithScore(t + [last], v);
        { WithScoreConcat(t, [last], v); }
        WithScore(t, v) + WithScore([last], v);
        { InsertDescStable(init, x, v); }
        WithScore(init, v) + WithScore([x], v) + WithScore([last], v);
        { WithScoreOne(x, v); WithScoreOne(last, v); }
        WithScore(init, v) + WithScore([last], v) + WithScore([x], v);
        { WithScoreConcat(init, [last], v); }
        WithScore(init + [last], v) + WithScore([x], v);
        { assert s == init + [last]; }
        WithScore(s, v) + WithScore([x], v);
      }
    }
  }

  lemma WithScoreOne(y: Ranked, v: real)
    ensures WithScore([y], v) == if y.finalScore == v then [y] else []
  {
    assert [y][..0] == [];
  }

  /** Where insertion puts x: right behind the last element that scores at
      least as much, every later element scoring strictly less. */
  lemma {:induction false} InsertDescAt(s: seq<Ranked>, x: Ranked, j: nat)
    requires j <= |s|
    requires j == 0 || s[j - 1].finalScore >= x.finalScore
    requires forall k :: j <= k < |s| ==> s[k].finalScore < x.finalScore
    ensures InsertDesc(s, x) == s[..j] + [x] + s[j..]
    decreases |s|
  {
    if j == |s| {
      assert s[..j] == s && s[j..] == [];
    } else {
      var init := s[..|s| - 1];
      InsertDescAt(init, x, j);
      assert s[..j] == init[..j];
      assert s[j..] == init[j..] + [s[|s| - 1]];
    }
  }

  /** The sort returns a permutation of its input, highest score first. */
  lemma {:induction false} SortDescCorrect(s: seq<Ranked>)
    ensures |SortDesc(s)| == |s|
    ensures multiset(SortDesc(s)) == multiset(s)
    ensures SortedDesc(SortDesc(s))
    decreases |s|
  {
    if s != [] {
      var init, last := s[..|s| - 1], s[|s| - 1];
      assert SortDesc(s) == InsertDesc(SortDesc(init), last);
      SortDescCorrect(init);
      InsertDescPermutes(SortDesc(init), last);
      InsertDescSorted(SortDesc(init), last);
      assert s == init + [last];
      assert multiset(s) == multiset(init) + multiset{last};
    }
  }

  /** The sort is stable: the members with any one score keep their input
      order. */
  lemma {:induction false} SortDescStable(s: seq<Ranked>, v: real)
    ensures WithScore(SortDesc(s), v) == WithScore(s, v)
    decreases |s|
  {
    if s != [] {
      var init, last := s[..|s| - 1], s[|s| - 1];
      SortDescStable(init, v);
      InsertDescStable(SortDesc(init), last, v);
      assert s == init + [last];
      WithScoreConcat(init, [last], v);
    }
  }

  /** Sorting a list with one more element inserts it into the sorted rest. */
  lemma SortDescSnoc(s: seq<Ranked>, x: Ranked)
    ensures SortDesc(s + [x]) == InsertDesc(SortDesc(s), x)
  {
    assert (s + [x])[..|s|] == s;
  }

  /** One insertion step: the element at position i moves left past every
      element that scores strictly less, which shift right by one. */
  method InsertIntoSorted(a: array<Ranked>, i: nat)
    requires i < a.Length
    modifies a
    ensures a[..i + 1] == InsertDesc(old(a[..i]), old(a[i]))
    ensures a[i + 1..] == old(a[i + 1..])
  {
    var x := a[i];
    ghost var s := a[..i];
    var j := i;
    while j > 0 && a[j - 1].finalScore < x.finalScore
      invariant 0 <= j <= i
      invariant forall k :: 0 <= k < j ==> a[k] == s[k]
      invariant forall k :: j < k <= i ==> a[k] == s[k - 1]
      invariant forall k :: i < k < a.Length ==> a[k] == old(a[k])
      invariant forall k :: j <= k < i ==> s[k].finalScore < x.finalScore
    {
      a[j] := a[j - 1];
      j := j - 1;
    }
    a[j] := x;
    ShiftedIsInsert(a[..], s, x, j);
    assert a[..i + 1] == a[..][..i + 1];
  }

  /** The array after the shifting loop and the final write, read as a
      sequence: the sorted prefix with x placed where InsertDesc puts it. */
  lemma ShiftedIsInsert(t: seq<Ranked>, s: seq<Ranked>, x: Ranked, j: nat)
    requires j <= |s| < |t|
    requires forall k :: 0 <= k < j ==> t[k] == s[k]
    requires t[j] == x
    requires forall k :: j < k <= |s| ==> t[k] == s[k - 1]
    requires j == 0 || s[j - 1].finalScore >= x.finalScore
    requires forall k :: j <= k < |s| ==> s[k].finalScore < x.finalScore
    ensures t[..|s| + 1] == InsertDesc(s, x)
  {
    InsertDescAt(s, x, j);
    assert t[..|s| + 1] == s[..j] + [x] + s[j..];
  }

  /** `pool.sort(...)` in place: insertion sort, highest score first. */
  method SortByScoreDesc(a: array<Ranked>)
    modifies a
    ensures a[..] == SortDesc(old(a[..]))
  {
    ghost var input := a[..];
    var i := 0;
    while i < a.Length
      invariant 0 <= i <= a.Length
      invariant a[..i] == SortDesc(input[..i])
      invariant a[i..] == input[i..]
    {
      ghost var rest := a[i..];
      assert a[i] == input[i];
      InsertIntoSorted(a, i);
      assert input[..i + 1] == input[..i] + [input[i]];
      SortDescSnoc(input[..i], input[i]);
      assert a[i + 1..] == rest[1..];
      i := i + 1;
    }
    assert a[..] == a[..a.Length] && input == input[..a.Length];
  }

  // ---------------------------------------------------------------- top 10

  /** The first k of s, or all of s when shorter. */
  function Take(s: seq<Ranked>, k: nat): seq<Ranked> {
    s[..Min(k, |s|)]
  }

  /** The ranked list `getTop10Applicants` returns. */
  function Top10(apps: seq<Application>, users: seq<User>, domain: string, now: int): seq<Ranked> {
    if |apps| == 0 then []
    else
      var enriched := Enrich(apps, IndexById(users), domain, now);
      Take(SortDesc(Experienced(enriched)), TopExperienced) + Take(SortDesc(Rookies(enriched)), TopRookie)
  }

  /** The `forEach` that fills `userMap`. */
  method BuildUserMap(users: seq<User>) returns (userMap: map<UserId, User>)
    ensures userMap == IndexById(users)
  {
    userMap := map[];
    var i := 0;
    while i < |users|
      invariant 0 <= i <= |users|
      invariant userMap == IndexById(users[..i])
    {
      assert users[..i + 1][..i] == users[..i];
      userMap := userMap[users[i].id := users[i]];
      i := i + 1;
    }
    assert users[..|users|] == users;
  }

  /** One pool sorted in place and cut to its first k. */
  method TopOfPool(pool: seq<Ranked>, k: nat) returns (top: seq<Ranked>)
    ensures top == Take(SortDesc(pool), k)
  {
    var a := new Ranked[|pool|](i requires 0 <= i < |pool| => pool[i]);
    assert a[..] == pool;
    SortByScoreDesc(a);
    top := a[..Min(k, a.Length)];
  }

  /** `getTop10Applicants`: build the id map, enrich, split, sort each pool,
      slice and concatenate. */
  method GetTop10Applicants(apps: seq<Application>, users: seq<User>, domain: string, now: int)
    returns (top: seq<Ranked>)
    ensures top == Top10(apps, users, domain, now)
  {
    if |apps| == 0 {
      return [];
    }
    var userMap := BuildUserMap(users);
    var enriched := Enrich(apps, userMap, domain, now);
    var topExperienced := TopOfPool(Experienced(enriched), TopExperienced);
    var topRookie := TopOfPool(Rookies(enriched), TopRookie);
    top := topExperienced + topRookie;
  }

  /** Top-k within a pool: the kept prefix and the dropped rest together are
      the pool, and nobody dropped outscores anybody kept. */
  lemma TopKWithinPool(pool: seq<Ranked>, k: nat)
    ensures var s := SortDesc(pool); var n := Min(k, |s|);
      && multiset(s[..n]) + multiset(s[n..]) == multiset(pool)
      && forall i, j :: 0 <= i < n <= j < |s| ==> s[j].finalScore <= s[i].finalScore
  {
    var s := SortDesc(pool);
    var n := Min(k, |s|);
    assert multiset(s[..n]) + multiset(s[n..]) == multiset(pool) by {
      SortDescCorrect(pool);
      assert s[..n] + s[n..] == s;
    }
    assert SortedDesc(s) by {
      SortDescCorrect(pool);
    }
  }

  /** The kept prefix of a sorted pool: as long as the pool allows, highest
      score first, and drawn from the pool. */
  lemma TakeSorted(pool: seq<Ranked>, k: nat)
    ensures var t := Take(SortDesc(pool), k);
      && |t| == Min(k, |pool|)
      && SortedDesc(t)
      && forall i :: 0 <= i < |t| ==> t[i] in pool
  {
    var s := SortDesc(pool);
    SortDescCorrect(pool);
    var t := Take(s, k);
    forall i | 0 <= i < |t| ensures t[i] in pool {
      assert t[i] == s[i];
      assert s[i] in multiset(s);
    }
  }

  /** Members of a pool come from the enriched list, with the pool's rookie flag. */
  lemma PoolMembers(s: seq<Ranked>)
    ensures forall x :: x in Experienced(s) ==> x in s && !x.isRookie
    ensures forall x :: x in Rookies(s) ==> x in s && x.isRookie
  {
    PoolsPartition(s);
    PoolsSeparate(s);
    forall x | x in Experienced(s) ensures x in s {
      assert x in multiset(Experienced(s));
    }
    forall x | x in Rookies(s) ensures x in s {
      assert x in multiset(Rookies(s));
    }
  }

  /** The enriched applicants, under the id map built from the user records. */
  function Enriched(apps: seq<Application>, users: seq<User>, domain: string, now: int): seq<Ranked> {
    Enrich(apps, IndexById(users), domain, now)
  }

  lemma EnrichedMember(apps: seq<Application>, users: seq<User>, domain: string, now: int, x: Ranked)
    requires x in Enriched(apps, users, domain, now)
    ensures WellJoined(x, apps, IndexById(users), domain, now)
  {
    var e := Enriched(apps, users, domain, now);
    var j :| 0 <= j < |e| && e[j] == x;
  }

  /** Top10 in terms of the two pools of the enriched list. */
  lemma Top10Pools(apps: seq<Application>, users: seq<User>, domain: string, now: int)
    ensures var e := Enriched(apps, users, domain, now);
      Top10(apps, users, domain, now)
        == Take(SortDesc(Experienced(e)), TopExperienced) + Take(SortDesc(Rookies(e)), TopRookie)
  {
  }

  /** The first k of one sorted pool: as long as the pool allows, highest
      score first, and sharing what every member of the pool has. */
  lemma PoolTopFrom(pool: seq<Ranked>, e: seq<Ranked>, rookies: bool, k: nat)
    requires forall x :: x in pool ==> x in e && x.isRookie == rookies
    ensures var t := Take(SortDesc(pool), k);
      && |t| == Min(k, |pool|) && SortedDesc(t)
      && forall i :: 0 <= i < |t| ==> t[i] in e && t[i].isRookie == rookies
  {
    var t := Take(SortDesc(pool), k);
    TakeSorted(pool, k);
    forall i | 0 <= i < |t| ensures t[i] in e && t[i].isRookie == rookies {
      assert t[i] in pool;
    }
  }

  /** The shape of a top-10 answer cut from the pools of any joined list. */
  lemma PoolTopsShape(e: seq<Ranked>)
    ensures var top := Take(SortDesc(Experienced(e)), TopExperienced) + Take(SortDesc(Rookies(e)), TopRookie);
      var split := Min(TopExperienced, |Experienced(e)|);
      && |top| == split + Min(TopRookie, |Rookies(e)|)
      && (forall k :: 0 <= k < split ==> !top[k].isRookie && top[k] in e)
      && (forall k :: split <= k < |top| ==> top[k].isRookie && top[k] in e)
      && SortedDesc(top[..split]) && SortedDesc(top[split..])
  {
    var ex, rk := Take(SortDesc(Experienced(e)), TopExperienced), Take(SortDesc(Rookies(e)), TopRookie);
    PoolMembers(e);
    PoolTopFrom(Experienced(e), e, false, TopExperienced);
    PoolTopFrom(Rookies(e), e, true, TopRookie);
    var top := ex + rk;
    assert top[..|ex|] == ex && top[|ex|..] == rk;
    forall k | 0 <= k < |top|
      ensures top[k] in e
      ensures k < |ex| ==> !top[k].isRookie
      ensures k >= |ex| ==> top[k].isRookie
    {
      if k < |ex| {
        assert top[k] == ex[k];
      } else {
        assert top[k] == rk[k - |ex|];
      }
    }
  }

  /** The shape of the answer: at most 7 experienced applicants, then at most
      3 rookies; each slice as long as its pool allows and never filled from
      the other pool, so fewer than 3 rookies leave slots empty even when more
      than 7 experienced applicants are waiting; each slice highest score
      first. */
  lemma Top10Shape(apps: seq<Application>, users: seq<User>, domain: string, now: int)
    ensures var e := Enriched(apps, users, domain, now);
      var top := Top10(apps, users, domain, now);
      var split := Min(TopExperienced, |Experienced(e)|);
      && |top| == split + Min(TopRookie, |Rookies(e)|)
      && |top| <= 10
      && (forall k :: 0 <= k < split ==> !top[k].isRookie && top[k].domainProfile.level != 1)
      && (forall k :: split <= k < |top| ==> top[k].isRookie && top[k].domainProfile.level == 1)
      && SortedDesc(top[..split]) && SortedDesc(top[split..])
  {
    var e := Enriched(apps, users, domain, now);
    var top := Top10(apps, users, domain, now);
    Top10Pools(apps, users, domain, now);
    PoolTopsShape(e);
    forall k | 0 <= k < |top| ensures top[k].isRookie == (top[k].domainProfile.level == 1) {
      EnrichedMember(apps, users, domain, now, top[k]);
    }
  }

  /** Every applicant in the answer is well joined to their own application,
      their user record and their profile for the domain. */
  lemma Top10Members(apps: seq<Application>, users: seq<User>, domain: string, now: int)
    ensures var top := Top10(apps, users, domain, now);
      forall k :: 0 <= k < |top| ==> WellJoined(top[k], apps, IndexById(users), domain, now)
  {
    var e := Enriched(apps, users, domain, now);
    var top := Top10(apps, users, domain, now);
    Top10Pools(apps, users, domain, now);
    PoolTopsShape(e);
    forall k | 0 <= k < |top| ensures WellJoined(top[k], apps, IndexById(users), domain, now) {
      EnrichedMember(apps, users, domain, now, top[k]);
    }
  }

  /** The answer is never longer than the applicant list. */
  lemma Top10NoLongerThanApplicants(apps: seq<Application>, users: seq<User>, domain: string, now: int)
    ensures |Top10(apps, users, domain, now)| <= |apps|
  {
    var e := Enriched(apps, users, domain, now);
    Top10Pools(apps, users, domain, now);
    TakeSorted(Experienced(e), TopExperienced);
    TakeSorted(Rookies(e), TopRookie);
    PoolsPartition(e);
    assert |multiset(Experienced(e))| + |multiset(Rookies(e))| == |multiset(e)|;
  }
}
