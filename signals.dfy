/** The post-save handler that gives a newly created user its role's profile row
    (backend/api/signals.py). */
module Signals {
  import opened Common
  import opened Models
  import Admin

  /** One profile row, in the table that matches its kind. */
  datatype Profile =
    | CompanyProfile(company: CompanyRecord)
    | AgronomistProfile(agronomist: AgronomistRecord)
    | FarmerProfile(farmer: FarmerRecord)

  function ProfileUser(p: Profile): Id {
    match p
    case CompanyProfile(c) => c.user
    case AgronomistProfile(a) => a.user
    case FarmerProfile(f) => f.user
  }

  /** The profile kind that belongs to a role. */
  predicate KindMatchesRole(p: Profile, role: Role) {
    match p
    case CompanyProfile(_) => role == Company
    case AgronomistProfile(_) => role == Agronomist
    case FarmerProfile(_) => role == Farmer
  }

  /** The profile the handler creates for a saved user, if any. `company` is the company the
      saved instance carries (it is not a column of the user table), and `newId` the id the
      database assigns to the new row. */
  function ProfileFor(instance: User, company: Option<Id>, created: bool, newId: Id): (p: Option<Profile>)
    ensures !created ==> p.None?
    ensures p.Some? ==> ProfileUser(p.value) == instance.id && KindMatchesRole(p.value, instance.role)
    ensures created && instance.role == Company ==> p == Some(CompanyProfile(CompanyRecord(newId, instance.id, "")))
    ensures created && (instance.role == Agronomist || instance.role == Farmer) ==> (p.Some? <==> company.Some?)
    ensures p.Some? && p.value.AgronomistProfile? ==> Some(p.value.agronomist.company) == company
    ensures p.Some? && p.value.FarmerProfile? ==> Some(p.value.farmer.company) == company
    ensures instance.role.Unlisted? ==> p.None?
  {
    if !created then None
    else match instance.role
      case Company => Some(CompanyProfile(CompanyRecord(newId, instance.id, "")))
      case Agronomist =>
        if company.Some? then Some(AgronomistProfile(AgronomistRecord(newId, instance.id, company.value, "", "")))
        else None
      case Farmer =>
        if company.Some? then Some(FarmerProfile(FarmerRecord(newId, instance.id, company.value, "")))
        else None
      case Unlisted(_) => None
  }

  /** The tables with one optional profile row added to the table of its kind. */
  function WithProfile(t: Tables, p: Option<Profile>): (r: Tables)
    ensures r.users == t.users && r.fields == t.fields && r.labs == t.labs && r.crops == t.crops
    ensures r.soilTests == t.soilTests && r.yieldRecords == t.yieldRecords && r.reports == t.reports
    ensures ProfileCount(r) == ProfileCount(t) + (if p.Some? then 1 else 0)
    ensures p.None? ==> r == t
    ensures p.Some? && p.value.CompanyProfile? ==>
      r.companies == t.companies + [p.value.company] && r.agronomists == t.agronomists && r.farmers == t.farmers
    ensures p.Some? && p.value.AgronomistProfile? ==>
      r.agronomists == t.agronomists + [p.value.agronomist] && r.companies == t.companies && r.farmers == t.farmers
    ensures p.Some? && p.value.FarmerProfile? ==>
      r.farmers == t.farmers + [p.value.farmer] && r.companies == t.companies && r.agronomists == t.agronomists
  {
    match p
    case None => t
    case Some(CompanyProfile(c)) => t.(companies := t.companies + [c])
    case Some(AgronomistProfile(a)) => t.(agronomists := t.agronomists + [a])
    case Some(FarmerProfile(f)) => t.(farmers := t.farmers + [f])
  }

  function ProfileCount(t: Tables): nat {
    |t.companies| + |t.agronomists| + |t.farmers|
  }

  /** create_user_profile: on the first save of a user, create the profile its role calls for. */
  method CreateUserProfile(db: Database, instance: User, company: Option<Id>, created: bool, newId: Id)
    modifies db
    ensures db.tables == WithProfile(old(db.tables), ProfileFor(instance, company, created, newId))
  {
    if created {
      if instance.role == Company {
        db.tables := db.tables.(companies := db.tables.companies + [CompanyRecord(newId, instance.id, "")]);
      } else if instance.role == Agronomist {
        if company.Some? {
          var row := AgronomistRecord(newId, instance.id, company.value, "", "");
          db.tables := db.tables.(agronomists := db.tables.agronomists + [row]);
        }
      } else if instance.role == Farmer {
        if company.Some? {
          var row := FarmerRecord(newId, instance.id, company.value, "");
          db.tables := db.tables.(farmers := db.tables.farmers + [row]);
        }
      }
    }
  }

  /** The three branches are exclusive: one save adds at most one profile row, and a save
      that is not a creation adds none. */
  lemma AtMostOneProfilePerSave(t: Tables, instance: User, company: Option<Id>, created: bool, newId: Id)
    ensures ProfileCount(WithProfile(t, ProfileFor(instance, company, created, newId))) <= ProfileCount(t) + 1
    ensures !created ==> WithProfile(t, ProfileFor(instance, company, created, newId)) == t
  {
  }

  /** The profile an admin-created user gets as the admin is written: the creation form
      saves only the user's own columns, and its company is not one of them, so the handler
      reads no company from the saved instance. */
  function AdminProfileAsWritten(data: Admin.CleanedData, instance: User, newId: Id): (p: Option<Profile>)
    ensures instance.role == Agronomist || instance.role == Farmer ==> p.None?
  {
    ProfileFor(instance, None, true, newId)
  }

  /** An agronomist or farmer that passed the form's company check still gets no profile. */
  lemma AdminCheckedUserGetsNoProfile(data: Admin.CleanedData, instance: User, newId: Id)
    requires Admin.Clean(data).Ok?
    requires Admin.NeedsCompany(data.role) && data.role == Some(instance.role)
    ensures data.company.Some?
    ensures AdminProfileAsWritten(data, instance, newId).None?
  {
  }

  /** The profile the form's company check is evidently there for: the checked company
      handed to the saved instance. */
  function AdminProfile(data: Admin.CleanedData, instance: User, newId: Id): (p: Option<Profile>)
    ensures (instance.role == Agronomist || instance.role == Farmer) && data.company.Some? ==>
      p.Some? && (p.value.AgronomistProfile? ==> Some(p.value.agronomist.company) == data.company)
      && (p.value.FarmerProfile? ==> Some(p.value.farmer.company) == data.company)
  {
    ProfileFor(instance, data.company, true, newId)
  }

  /** With the company handed on, a user that passed the admin form's check as an
      agronomist or farmer gets a profile of its role linked to the checked company. */
  lemma {:induction false} AdminCheckedUserGetsProfile(data: Admin.CleanedData, instance: User, newId: Id)
    requires Admin.Clean(data).Ok?
    requires Admin.NeedsCompany(data.role) && data.role == Some(instance.role)
    ensures var p := AdminProfile(data, instance, newId);
      && p.Some? && KindMatchesRole(p.value, instance.role) && ProfileUser(p.value) == instance.id
      && (p.value.AgronomistProfile? ==> Some(p.value.agronomist.company) == data.company)
      && (p.value.FarmerProfile? ==> Some(p.value.farmer.company) == data.company)
  {
    assert data.company.Some?;
  }
}
