/** Sign-up: the default profile every chosen domain starts from, and the
    guards and save of `register`. Password hashing and token signing are not
    part of this model; only the password's length, which the schema checks,
    is. */
module AuthService {
  import opened Common
  import opened UserModel
  import opened Store

  /** The schema's minimum password length. */
  const MinPasswordLength: nat := 6

  /** `initializeDomains`: one default profile per name, in order, repeated
      names included; each starts fresh with its boost running seven days
      from `now`. */
  function InitializeDomains(names: seq<string>, now: int): (ps: seq<DomainProfile>)
    ensures |ps| == |names|
    ensures forall i :: 0 <= i < |ps| ==>
      ps[i].domainName == Trim(names[i]) && IsFreshProfile(ps[i], now)
    decreases |names|
  {
    if names == [] then []
    else [DefaultDomainProfile(names[0], now)] + InitializeDomains(names[1..], now)
  }

  /** Every initialized profile passes the schema's bounds exactly when its
      trimmed name is not empty. */
  lemma {:induction false} InitializedInBounds(names: seq<string>, now: int)
    ensures (forall i :: 0 <= i < |names| ==> ProfileInBounds(InitializeDomains(names, now)[i]))
            <==> (forall i :: 0 <= i < |names| ==> Trim(names[i]) != "")
  {
    var ps := InitializeDomains(names, now);
    forall i | 0 <= i < |names| ensures ProfileInBounds(ps[i]) <==> Trim(names[i]) != "" {
      assert ps[i].domainName == Trim(names[i]) && IsFreshProfile(ps[i], now);
    }
  }

  /** Nothing is deduplicated: choosing "Design" and "design" gives two
      profiles, and the lookup finds the first. */
  lemma RepeatedNamesKept(now: int)
    ensures var ps := InitializeDomains(["Design", "design"], now);
      |ps| == 2 && ps[0].domainName == "Design" && ps[1].domainName == "design"
      && FindDomainIndex(ps, "DESIGN") == Some(0)
  {
    var ps := InitializeDomains(["Design", "design"], now);
    assert ps[0].domainName == Trim("Design") == "Design";
    assert ps[1].domainName == Trim("design") == "design";
    assert Lower("Design") == Lower("DESIGN");
  }

  /** Whether some stored user has exactly this e-mail. */
  predicate EmailTaken(users: map<UserId, User>, email: string) {
    exists id :: id in users && users[id].email == email
  }

  /** What saving a new user validates: a non-empty trimmed name and
      e-mail, a password of at least six characters, and every domain name
      non-empty after trimming. */
  predicate RegistrationValid(name: string, email: string, password: string, domainNames: seq<string>) {
    && Trim(name) != "" && NormalizeEmail(email) != ""
    && |password| >= MinPasswordLength
    && forall i :: 0 <= i < |domainNames| ==> Trim(domainNames[i]) != ""
  }

  /** `register`: a freelancer (or both) without domains is a 400, before
      any lookup; an e-mail already stored is a 409, where the lookup value
      goes through the same lower-casing and trimming the stored e-mail went
      through; the save then validates the document (500). A user that
      passes all three is stored under the next id, with its e-mail in
      normal form, so no two registrations share an e-mail. */
  method Register(db: Database, name: string, email: string, password: string, phone: string, role: Role,
                  domainNames: seq<string>, now: int)
    returns (r: Result<User>)
    requires db.Valid()
    modifies db
    ensures db.Valid()
    ensures db.tasks == old(db.tasks)
    ensures r.Err? ==> db.users == old(db.users) && db.nextId == old(db.nextId)
    ensures (role == Freelancer || role == Both) && domainNames == [] ==> r == Err(400)
    ensures !((role == Freelancer || role == Both) && domainNames == []) ==>
      && (EmailTaken(old(db.users), NormalizeEmail(email)) ==> r == Err(409))
      && (!EmailTaken(old(db.users), NormalizeEmail(email)) ==>
            && (!RegistrationValid(name, email, password, domainNames) ==> r == Err(500))
            && (RegistrationValid(name, email, password, domainNames) ==>
                  var u := NewUser(old(db.nextId), name, email, phone, role, InitializeDomains(domainNames, now));
                  r == Ok(u) && db.users == old(db.users)[u.id := u] && db.nextId == old(db.nextId) + 1))
    ensures r.Ok? ==> !EmailTaken(old(db.users), r.value.email)
  {
    if (role == Freelancer || role == Both) && |domainNames| == 0 {
      return Err(400);
    }
    var normalized := NormalizeEmail(email);
    if exists id :: id in db.users && db.users[id].email == normalized {
      return Err(409);
    }
    var profiles := InitializeDomains(domainNames, now);
    var user := NewUser(db.nextId, name, email, phone, role, profiles);
    if !RegistrationValid(name, email, password, domainNames) {
      return Err(500);
    }
    InitializedInBounds(domainNames, now);
    db.users := db.users[user.id := user];
    db.nextId := db.nextId + 1;
    r := Ok(user);
  }

  /** Registering a stored e-mail again in another letter case is refused
      with a 409. */
  lemma SameEmailAnyCaseRefused(users: map<UserId, User>, id: UserId, email: string)
    requires id in users && users[id].email == NormalizeEmail(email)
    ensures EmailTaken(users, NormalizeEmail(Upper(email)))
  {
    LowerOfUpper(email);
  }

  /** White space around the e-mail does not get past the 409 either: with
      "a@b.c" stored, " A@b.c " is refused. */
  lemma PaddedEmailRefused(users: map<UserId, User>, id: UserId)
    requires id in users && users[id].email == "a@b.c"
    ensures EmailTaken(users, NormalizeEmail(" A@b.c "))
  {
    assert Lower(" A@b.c ") == " a@b.c ";
    assert TrimStart(" a@b.c ") == "a@b.c " by {
      assert " a@b.c "[1..] == "a@b.c ";
    }
    assert TrimEnd("a@b.c ") == "a@b.c" by {
      assert "a@b.c "[..5] == "a@b.c";
    }
  }
}
