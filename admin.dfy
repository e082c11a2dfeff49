/** The admin site's user-creation form check (backend/api/admin.py): agronomists and
    farmers must name a company. */
module Admin {
  import opened Common
  import opened Models

  /** The cleaned fields of the user-creation form that the check looks at; the email stands
      for every other cleaned field, which passes through untouched. */
  datatype CleanedData = CleanedData(email: string, role: Option<Role>, company: Option<Id>)

  datatype ValidationError = ValidationError(message: string)

  const CompanyRequiredMessage := "Company is required for Agronomists and Farmers"

  /** Roles whose accounts belong to a company. */
  predicate NeedsCompany(role: Option<Role>) {
    role == Some(Agronomist) || role == Some(Farmer)
  }

  /** CustomUserCreationForm.clean: reject an agronomist or farmer without a company,
      otherwise hand the cleaned data back. */
  function Clean(data: CleanedData): (r: Result<CleanedData, ValidationError>)
    ensures r.Err? <==> NeedsCompany(data.role) && data.company.None?
    ensures r.Err? ==> r.error.message == CompanyRequiredMessage
    ensures r.Ok? ==> r.value == data
    ensures r.Ok? && NeedsCompany(r.value.role) ==> r.value.company.Some?
  {
    if data.role in [Some(Agronomist), Some(Farmer)] && data.company.None? then
      Err(ValidationError(CompanyRequiredMessage))
    else
      Ok(data)
  }

  /** A company account needs no company, whatever else the form holds. */
  lemma CompanyRoleAlwaysPasses(email: string, company: Option<Id>)
    ensures Clean(CleanedData(email, Some(Company), company)) == Ok(CleanedData(email, Some(Company), company))
  {
  }
}
