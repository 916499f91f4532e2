/** The user document: a freelancer's or client's identity with one embedded
    reputation profile per skill domain, the profile defaults a new domain
    starts from, the bounds the schema enforces when a user is saved, and the
    case-insensitive domain lookup every service uses. */
module UserModel {
  import opened Common

  type UserId = nat

  /** Milliseconds in the seven-day beginner boost window. */
  const BoostWindowMs: int := 7 * 24 * 60 * 60 * 1000

  datatype Role = Freelancer | Client | Both

  /** One freelancer's reputation in one domain. Times are milliseconds. */
  datatype DomainProfile = DomainProfile(
    domainName: string,
    qualityScore: real,
    reliabilityScore: real,
    level: int,
    completedTasks: nat,
    beginnerBoostExpiresAt: int,
    cancellations: nat,
    onTimeCompletions: nat,
    totalAssigned: nat,
    ratingSum: real)

  datatype User = User(
    id: UserId,
    name: string,
    email: string,
    phone: string,
    role: Role,
    domains: seq<DomainProfile>)

  /** The profile the schema builds for a domain added at time `now`: the name
      trimmed, quality 0, reliability 100, level 1, every counter 0, and a
      beginner boost that runs for seven days. */
  function DefaultDomainProfile(name: string, now: int): DomainProfile {
    DomainProfile(Trim(name), 0.0, 100.0, 1, 0, now + BoostWindowMs, 0, 0, 0, 0.0)
  }

  /** A profile straight out of registration: nothing rated, nothing assigned. */
  predicate IsFreshProfile(p: DomainProfile, now: int) {
    && p.qualityScore == 0.0 && p.reliabilityScore == 100.0 && p.level == 1
    && p.completedTasks == 0 && p.cancellations == 0 && p.onTimeCompletions == 0
    && p.totalAssigned == 0 && p.ratingSum == 0.0
    && p.beginnerBoostExpiresAt == now + BoostWindowMs
  }

  /** What saving a profile validates: a non-empty name, quality in [0,5] and
      reliability in [0,100]. */
  predicate ProfileInBounds(p: DomainProfile) {
    && p.domainName != ""
    && 0.0 <= p.qualityScore <= 5.0
    && 0.0 <= p.reliabilityScore <= 100.0
  }

  /** What saving a user validates: required name and e-mail, and every
      embedded profile in bounds. */
  predicate UserSchemaValid(u: User) {
    && u.name != "" && u.email != ""
    && forall i :: 0 <= i < |u.domains| ==> ProfileInBounds(u.domains[i])
  }

  /** The e-mail as stored: lower-cased and trimmed. */
  function NormalizeEmail(email: string): string {
    Trim(Lower(email))
  }

  /** A stored e-mail is already in normal form: lower-casing or trimming it
      again changes nothing. */
  lemma NormalizedEmailIsStable(email: string)
    ensures Lower(NormalizeEmail(email)) == NormalizeEmail(email)
    ensures Trim(NormalizeEmail(email)) == NormalizeEmail(email)
  {
    var l := Lower(email);
    var r := NormalizeEmail(email);
    TrimShape(l);
    var i :| 0 <= i <= |l| - |r| && r == l[i..i + |r|] && Blank(l[..i]) && Blank(l[i + |r|..]);
    forall k | 0 <= k < |r| ensures LowerChar(r[k]) == r[k] {
      assert r[k] == l[i + k];
    }
    LowerFixed(r);
    TrimFixed(r);
  }

  /** A string without upper-case ASCII letters lower-cases to itself. */
  lemma LowerFixed(s: string)
    requires forall k :: 0 <= k < |s| ==> LowerChar(s[k]) == s[k]
    ensures Lower(s) == s
  {
  }

  /** A string with no white space at either end trims to itself. */
  lemma TrimFixed(s: string)
    requires s == "" || (!IsSpace(s[0]) && !IsSpace(s[|s| - 1]))
    ensures Trim(s) == s
  {
    assert TrimStart(s) == s;
  }

  /** A user document as the schema stores it: name, e-mail and phone pass
      through their setters. */
  function NewUser(id: UserId, name: string, email: string, phone: string, role: Role,
                   domains: seq<DomainProfile>): User {
    User(id, Trim(name), NormalizeEmail(email), Trim(phone), role, domains)
  }

  /** The position of the first profile whose name equals `name` ignoring case. */
  function FindDomainIndex(domains: seq<DomainProfile>, name: string): (r: Option<nat>)
    ensures r.Some? ==> r.value < |domains| && SameName(domains[r.value].domainName, name)
    ensures r.Some? ==> forall j :: 0 <= j < r.value ==> !SameName(domains[j].domainName, name)
    ensures r.None? <==> forall j :: 0 <= j < |domains| ==> !SameName(domains[j].domainName, name)
  {
    if |domains| == 0 then None
    else if SameName(domains[0].domainName, name) then Some(0)
    else match FindDomainIndex(domains[1..], name)
      case None => None
      case Some(i) => Some(i + 1)
  }

  /** `user.getDomain(name)`: the first matching profile, or nothing. */
  function GetDomain(domains: seq<DomainProfile>, name: string): (r: Option<DomainProfile>)
    ensures r.Some? <==> exists j :: 0 <= j < |domains| && SameName(domains[j].domainName, name)
    ensures r.Some? ==> r.value in domains && SameName(r.value.domainName, name)
  {
    match FindDomainIndex(domains, name)
    case None => None
    case Some(i) => Some(domains[i])
  }

  /** Two names that lower-case alike find the same profile. */
  lemma {:induction false} FindDomainIndexIgnoresCase(domains: seq<DomainProfile>, x: string, y: string)
    requires Lower(x) == Lower(y)
    ensures FindDomainIndex(domains, x) == FindDomainIndex(domains, y)
  {
    if |domains| > 0 && !SameName(domains[0].domainName, x) {
      FindDomainIndexIgnoresCase(domains[1..], x, y);
    }
  }

  /** The lookup ignores the case of its argument: `getDomain(x)` and
      `getDomain(x.toUpperCase())` return the same profile. */
  lemma GetDomainIgnoresCase(domains: seq<DomainProfile>, x: string)
    ensures GetDomain(domains, Upper(x)) == GetDomain(domains, x)
  {
    LowerOfUpper(x);
    FindDomainIndexIgnoresCase(domains, Upper(x), x);
  }

  /** A default profile is schema-valid exactly when its trimmed name is
      non-empty, and it is fresh. */
  lemma DefaultProfileShape(name: string, now: int)
    ensures IsFreshProfile(DefaultDomainProfile(name, now), now)
    ensures ProfileInBounds(DefaultDomainProfile(name, now)) <==> Trim(name) != ""
    ensures DefaultDomainProfile(name, now).domainName == Trim(name)
  {
  }

  /** Replacing one profile of a user by an in-bounds profile keeps the user
      schema-valid. */
  lemma ReplaceProfileKeepsValid(u: User, i: nat, p: DomainProfile)
    requires UserSchemaValid(u) && i < |u.domains| && ProfileInBounds(p)
    ensures UserSchemaValid(u.(domains := u.domains[i := p]))
  {
  }
}
