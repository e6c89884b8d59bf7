/** The admin model's statics and methods: seeding the default
    superadmin, resetting the superadmin password, and comparing a
    candidate password with an admin's hash. */
module AdminModel {
  import opened JsValues
  import opened Credentials
  import opened Store

  const DefaultAdmin := Admin("Super Admin", "admin@example.com", Hash("admin123"), SuperAdminRole)

  const SuperAdminNotFound := "Super admin account not found"
  const SuperAdminReset := "Super admin password reset successfully"

  /** `createDefaultAdmin`: seeds the default superadmin into an empty
      collection and leaves a non-empty one alone. */
  function DefaultAdminOutcome(admins: map<string, Admin>, newId: string): map<string, Admin>
  {
    if |admins| == 0 then map[newId := DefaultAdmin] else admins
  }

  method CreateDefaultAdmin(db: Database, newId: string)
    modifies db
    ensures db.admins == DefaultAdminOutcome(old(db.admins), newId)
    ensures db.users == old(db.users) && db.tasks == old(db.tasks)
    ensures old(db.Valid()) ==> db.Valid()
  {
    SeedingResult(db.admins, newId);
    var adminCount := |db.admins|;
    if adminCount == 0 {
      var hashed := Hash("admin123");
      db.admins := db.admins[newId := Admin("Super Admin", "admin@example.com", hashed, SuperAdminRole)];
    }
  }

  /** After seeding there is at least one admin; a fresh store gets exactly
      one, the superadmin, who can log in with 'admin123'. */
  lemma SeedingResult(admins: map<string, Admin>, newId: string)
    ensures |DefaultAdminOutcome(admins, newId)| >= 1
    ensures |admins| == 0 ==> SuperAdmins(DefaultAdminOutcome(admins, newId)) == {newId}
    ensures |admins| == 0 ==> Matches("admin123", DefaultAdminOutcome(admins, newId)[newId].password)
    ensures AdminEmailsUnique(admins) ==> AdminEmailsUnique(DefaultAdminOutcome(admins, newId))
  {
    if |admins| != 0 {
      assert admins.Keys != {};
    }
  }

  /** Seeding twice is seeding once. */
  lemma SeedingIdempotent(admins: map<string, Admin>, newId: string, laterId: string)
    ensures DefaultAdminOutcome(DefaultAdminOutcome(admins, newId), laterId) == DefaultAdminOutcome(admins, newId)
  {
    SeedingResult(admins, newId);
  }

  /** The admin store with one admin's hash replaced. */
  function WithPassword(admins: map<string, Admin>, id: string, plain: string): (r: map<string, Admin>)
    requires id in admins
    ensures r.Keys == admins.Keys
    ensures r[id] == admins[id].(password := Hash(plain))
    ensures forall k :: k in admins && k != id ==> r[k] == admins[k]
  {
    admins[id := admins[id].(password := Hash(plain))]
  }

  /** Replacing any admin's hash keeps every email and role, so the unique
      index on emails still holds. */
  lemma WithPasswordKeepsEmails(admins: map<string, Admin>, id: string, plain: string)
    requires id in admins
    ensures forall k :: k in admins ==> WithPassword(admins, id, plain)[k].email == admins[k].email
    ensures forall k :: k in admins ==> WithPassword(admins, id, plain)[k].role == admins[k].role
    ensures AdminEmailsUnique(admins) ==> AdminEmailsUnique(WithPassword(admins, id, plain))
  {
  }

  /** `resetSuperAdminPassword(newPassword)`: `{ success: false }` without
      a change when there is no superadmin; otherwise one superadmin's hash
      is replaced (`findOne` picks which when there are several). */
  method ResetSuperAdminPassword(db: Database, newPassword: string) returns (success: bool, message: string)
    modifies db
    ensures success <==> SuperAdmins(old(db.admins)) != {}
    ensures !success ==> db.admins == old(db.admins) && message == SuperAdminNotFound
    ensures success ==> message == SuperAdminReset
    ensures success ==>
              exists id :: id in SuperAdmins(old(db.admins)) && db.admins == WithPassword(old(db.admins), id, newPassword)
    ensures db.users == old(db.users) && db.tasks == old(db.tasks)
    ensures old(db.Valid()) ==> db.Valid()
  {
    if SuperAdmins(db.admins) == {} {
      return false, SuperAdminNotFound;
    }
    var id :| id in SuperAdmins(db.admins);
    WithPasswordKeepsEmails(db.admins, id, newPassword);
    var hashed := Hash(newPassword);
    db.admins := db.admins[id := db.admins[id].(password := hashed)];
    return true, SuperAdminReset;
  }

  /** A reset touches the superadmin's hash and nothing else: the roles,
      the emails and every other admin stay, and the new password matches. */
  lemma ResetTouchesOnlySuperAdmin(admins: map<string, Admin>, id: string, plain: string)
    requires id in SuperAdmins(admins)
    ensures SuperAdmins(WithPassword(admins, id, plain)) == SuperAdmins(admins)
    ensures Matches(plain, WithPassword(admins, id, plain)[id].password)
    ensures AdminEmailsUnique(admins) ==> AdminEmailsUnique(WithPassword(admins, id, plain))
    ensures forall k :: k in admins && admins[k].role == AdminRole ==> WithPassword(admins, id, plain)[k] == admins[k]
  {
    var r := WithPassword(admins, id, plain);
    assert forall k :: k in r ==> r[k].email == admins[k].email && r[k].role == admins[k].role;
  }

  /** `admin.comparePassword(candidate)`. */
  predicate ComparePassword(admin: Admin, candidate: string) {
    Matches(candidate, admin.password)
  }

  /** The comparison accepts exactly the password the hash was made from. */
  lemma ComparePasswordIff(admin: Admin, candidate: string, plain: string)
    requires admin.password == Hash(plain)
    ensures ComparePassword(admin, candidate) <==> candidate == plain
  {
    MatchesIff(candidate, plain);
  }
}
