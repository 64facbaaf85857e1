/** The organization record as the admin list and merge views read it, and
    the organization-type codes they compare against. */
module OrganizationModel {
  import opened Wrappers

  /** Organization-type codes. Their values live in organization/models.py,
      which is not part of this model; only their distinctness matters here. */
  const GROUP: string := "G"
  const INDIVIDUAL: string := "I"
  const UNKNOWN: string := "U"

  /** One stored organization, reduced to the columns the list and merge
      views filter on. Nullable columns are `Option`s. */
  datatype OrganizationRow = OrganizationRow(
    id: int,
    weVoteId: string,
    name: string,
    orgType: Option<string>,
    stateServedCode: Option<string>,
    twitterHandle: Option<string>,
    website: Option<string>,
    twitterDescription: Option<string>,
    voteSmartId: Option<string>)
}
