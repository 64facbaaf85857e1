# WeVote organization admin rules and voter stance API — a Dafny model

This project models two pieces of decision logic from the WeVote server.

The first is the organization admin tool, in `organization/views_admin.py`:

- The organization list. The state, type and issue filters, the
  word-by-word search, the default exclusion of placeholder names, and the
  200/1000/all display caps.
- The reserved-domain list. It has the same shape, over reserved entries
  and over the domain columns of organizations.
- The duplicate-organization merge. Ordered refusal checks come first, then
  the follower and membership moves, the admin-choice map built from the
  conflict classification, and the merge itself.
- The edit form.
  - Fields the form sent are stored stripped; the others keep their value.
  - A new organization is created only with a name and when the duplicate
    search finds nothing.
  - The organization's issue links are reconciled against the ticked issues.
- The account form. Domains and subdomains are gated by an availability
  check. The feature package is looked up in the master list.
- The reserved-domain edit. A posted name already used by an organization
  or another reserved entry is refused. Empty values are stored as null.
- The delete preconditions: confirmation, lookup, no attached issues, and
  the Twitter link removed.
- The position edit. The candidate takes precedence over the measure, the
  existing position is looked up, and the conditional overwrite applies.

The second is the voter stance API, in `support_oppose_deciding/controllers.py`:

- The four save endpoints (support, stop supporting, oppose, stop opposing).
- The position-count endpoint, with its candidate and measure counters.
- The support and oppose count wrappers.

These share one shape: check the device id, then the voter id, then
dispatch on the candidate id before the measure id. Each answers with a
`{status, success[, count]}` envelope.

How the model is built:

- Requests are records of the posted values, and stored rows are datatypes.
  A posted value that is missing is `None`.
- Collaborators that live outside these two files are function-valued
  inputs: the database lookups, the conflict classification, the follower
  and membership movers, the merge, the availability checks, the duplicate
  search, and the position managers.
- Django querysets are sequences of rows. A `.filter` step keeps the rows
  that satisfy its predicate, in order.
- Where the views update an organization, position or reserved entry field
  by field, the model is a class whose methods assign those fields under a
  `modifies` clause.
- Issue reconciliation is a loop over the ticked issues that removes them
  from the prior list, as the view does.
- `positive_value_exists` is modelled as a non-empty string or a positive
  integer.
- Python's `strip()` and `split()` are modelled over the characters
  `str.isspace` accepts, including the separators U+001C–U+001F and the
  Unicode spaces.
- Django's `iexact` and `icontains` are modelled with ASCII lower-casing.

Some behaviours are modelled as written, and lemmas make them visible:

- The merge's membership gate reads the follower mover's result, not the
  membership mover's (`OrganizationMerge.MembershipGateIgnoresMembershipMover`).
- The count endpoint's measure branch passes the candidate id on
  (`SupportOppose.MeasureIdNeverConsulted`).
- The voter-id-missing status ends in a space on the two "stop" endpoints
  and on the count endpoint but not on the others, and the two
  "stop … measure" prefixes run into the manager's status without a space.
- On create the posted e-mail is replaced by `''`.
- A position form naming a measure that is not stored raises out of the
  view (see "## Findings").

## Model

| member | source | states |
|---|---|---|
| Text.Strip | organization/views_admin.py:907-930 | the stripped value is no longer than the input and neither starts nor ends with whitespace |
| Text.StripIsInfix | organization/views_admin.py:907-930 | the stripped value is a contiguous piece of the original string, and everything cut off before and after it is whitespace |
| Text.StripIdempotent | organization/views_admin.py:907-930 | stripping twice gives what stripping once gives |
| Text.StripEmptyIff | organization/views_admin.py:2216-2230 | a string strips to empty exactly when it is all whitespace |
| Text.FirstWord | organization/views_admin.py:303 | the first word is a whitespace-free prefix of the input, ended by whitespace or the end of the input |
| Text.Words | organization/views_admin.py:303 | the split of the search string; its lemmas state that every word is non-empty and whitespace-free, that there are none exactly for an all-whitespace string, that splitting at any whitespace character splits the words, and that words joined by spaces split back to themselves |
| Text.WordsAreWords | organization/views_admin.py:303 | every search word produced by the split is non-empty and free of whitespace |
| Text.WordsEmptyIff | organization/views_admin.py:302-303 | the split gives no words exactly when the search string is all whitespace |
| Text.WordsOfWord | organization/views_admin.py:303 | a single whitespace-free, non-empty string splits into itself alone |
| Text.WordsAfterWord | organization/views_admin.py:303 | a word followed by whitespace or the end contributes itself, then the words of what follows |
| Text.WordsSplitAtSpace | organization/views_admin.py:303 | splitting at a whitespace character and splitting the two sides gives the same words, in the same order |
| Text.WordsOfJoin | organization/views_admin.py:303 | words joined with single spaces split back into exactly those words |
| Query.Where | organization/views_admin.py:259-260 | one filter step keeps exactly the rows of the query that satisfy its predicate |
| Query.Select | organization/views_admin.py:259-332 | a chain of filters keeps exactly the rows that satisfy every filter of the chain |
| Query.WhereAfterSelect | organization/views_admin.py:259-300 | adding a filter to a chain is the same as filtering the chain's result |
| Query.Narrow | organization/views_admin.py:262-300 | one more `.filter` on a query equals the selection by the longer chain |
| Query.NarrowAll | organization/views_admin.py:304-332 | the per-word loop that adds one filter per word yields the selection by the whole chain |
| Query.Displayed | organization/views_admin.py:361-367 | the shown rows are a prefix of the query: at most 1000 with show_more, all with show_all only, otherwise at most 200 |
| Query.ShowMoreWins | organization/views_admin.py:361-367 | show_more decides the cap whatever show_all says, and never shows more than 1000 |
| OrganizationList.TypeFilterCases | organization/views_admin.py:262-274 | with no type filter individuals are excluded; UNKNOWN also admits a null or empty type; any other filter requires a case-insensitive match |
| OrganizationList.PreSearchMeaning | organization/views_admin.py:259-300 | the state, type and issue filters together admit exactly the organizations of the state asked for, of the admitted type, linked to one of the issues asked for |
| OrganizationList.WordFilters | organization/views_admin.py:304-332 | the search loop builds one filter per word, in the order of the words |
| OrganizationList.WordFiltersMeaning | organization/views_admin.py:304-332 | the word filters admit an organization exactly when every word occurs, ignoring case, in one of its six searched fields |
| OrganizationList.SearchMeaning | organization/views_admin.py:302-355 | with a search string the words decide; without one only the placeholder-name exclusion applies |
| OrganizationList.ListFiltersMeaning | organization/views_admin.py:259-355 | the whole filter chain admits exactly the organizations the listing rule admits |
| OrganizationList.ListFilters | organization/views_admin.py:259-355 | the filter chain of the list view; `ListFiltersMeaning` states that it admits exactly the organizations the listing rule admits |
| OrganizationList.ListSelectsAdmitted | organization/views_admin.py:259-357 | the filtered query holds the admitted organizations, in stored order |
| OrganizationList.PreSearchStages | organization/views_admin.py:259-300 | the state, type and issue stages, applied one by one, give the selection by the pre-search filters |
| OrganizationList.SearchStage | organization/views_admin.py:302-355 | the search or exclusion stage completes the selection by the whole filter chain |
| OrganizationList.OrganizationListView | organization/views_admin.py:230-367 | the count is the number of admitted organizations, and the shown list is that selection cut by the display caps |
| OrganizationList.SearchRequiresEveryWord | organization/views_admin.py:302-332 | a listed organization contains every search word in one of its searched fields |
| OrganizationList.BlankSearchKeepsPlaceholders | organization/views_admin.py:302-355 | a search string that is only whitespace searches for no word, so placeholder names stay listed |
| OrganizationList.NoSearchHidesPlaceholders | organization/views_admin.py:333-355 | without a search string, an empty name or one starting "Voter-" or "wv" is never listed |
| OrganizationMerge.AdminMergeChoices | organization/views_admin.py:548-558 | a field gets organization 2's value exactly when it is a conflict the admin resolved for organization 2 or is classified CANDIDATE2 |
| OrganizationMerge.BuildAdminMergeChoices | organization/views_admin.py:548-558 | the loop over the conflict fields builds exactly that map |
| OrganizationMerge.CompleteKeys | organization/views_admin.py:505-520 | a missing id or we_vote_id is completed from the other one, and a present one is kept |
| OrganizationMerge.MergeProcess | organization/views_admin.py:442-561 | skip makes no call at all; any other run starts with the voter lookup on organization 2; a merge ends a run of seven calls, the merge last |
| OrganizationMerge.MoveAndMerge | organization/views_admin.py:522-561 | the followers move first from organization 2 to organization 1, memberships follow between the same two, and the merge comes last |
| OrganizationMerge.RefusalOrder | organization/views_admin.py:442-503 | skip, a voter link, a Twitter link, organization 1 missing and organization 2 missing are checked in this order, and the first that holds decides the outcome |
| OrganizationMerge.MergeOnlyAfterAllChecks | organization/views_admin.py:442-561 | the merge is called exactly when no refusal check applies and the follower mover reports nothing left behind |
| OrganizationMerge.LinkedOrganization2MovesNothing | organization/views_admin.py:459-485 | when organization 2 is linked to a voter or a Twitter account, nothing is moved and nothing merged |
| OrganizationMerge.MergeProcessShape | organization/views_admin.py:442-561 | a refused request makes lookups only; otherwise the four lookups are followed by the moves and the merge |
| OrganizationMerge.FollowersMoveFromOrganization2ToOrganization1 | organization/views_admin.py:505-533 | every follower move goes from organization 2 to organization 1 |
| OrganizationMerge.MembershipsMoveAfterFollowers | organization/views_admin.py:522-546 | the membership move comes right after the follower move, between the same organizations |
| OrganizationMerge.MembershipGateIgnoresMembershipMover | organization/views_admin.py:535-546 | whether the merge happens does not depend on the membership mover's report |
| IssueLinks.FirstIndex | organization/views_admin.py:1095-1098 | the index found holds the value, and the value does not occur before it |
| IssueLinks.RemoveFirst | organization/views_admin.py:1095-1098 | removing a present issue takes exactly one copy of it out of the list |
| IssueLinks.RemoveFirstAtFirstIndex | organization/views_admin.py:1095-1098 | the copy removed is the first one: the result is the list with that entry cut out, the rest in order |
| IssueLinks.StepStruck | organization/views_admin.py:1087-1094 | a ticked issue still on the remaining prior list is struck off it, which keeps the loop's invariant |
| IssueLinks.StepLinked | organization/views_admin.py:1087-1094 | a ticked issue not yet linked is linked, which keeps the loop's invariant |
| IssueLinks.ReconcileIssueLinks | organization/views_admin.py:1082-1098 | the links created are the ticked issues minus the prior ones, and the links removed are the prior issues minus the ticked ones, counted with multiplicity; with nothing ticked every prior link is removed |
| IssueLinks.DifferenceMembers | organization/views_admin.py:1082-1098 | whatever the reconciliation creates was ticked, and whatever it removes was linked before |
| IssueLinks.ReconcileAsSets | organization/views_admin.py:1082-1098 | without repeats, an issue is linked exactly when ticked and not linked before, unlinked exactly when linked before and not ticked, and an issue in both is left alone |
| IssueLinks.RepeatedTickLinksAgain | organization/views_admin.py:1087-1094 | for any result of the reconciliation, an issue linked once before and ticked twice gets exactly one new link and is not unlinked |
| OrganizationDelete.DeleteProcess | organization/views_admin.py:776-837 | nothing is called without confirmation, and a delete is exactly the run that makes all four calls |
| OrganizationDelete.DeletedOnlyAfterAllChecks | organization/views_admin.py:794-832 | the posted id is deleted exactly when it is confirmed, found, has no issues and its Twitter link is gone, and the delete comes right after the unlink |
| OrganizationDelete.RefusalOrder | organization/views_admin.py:794-830 | confirmation, lookup, issue count and Twitter unlink are checked in that order, and a refused unlink reports its status |
| OrganizationDelete.IssuesBlockBeforeUnlink | organization/views_admin.py:808-822 | an organization with issues keeps its Twitter link: no unlink or delete is attempted |
| OrganizationEdit.LastMatch | organization/views_admin.py:1203-1209 | the package chosen is the last package in the master list with the posted name, and there is none when no package has that name |
| OrganizationEdit.ReadEditForm | organization/views_admin.py:852-865 | a missing name reads as `''` and a missing type as GROUP; the e-mail, website, Twitter handle and state code are present exactly when posted; the ticked issues are kept |
| OrganizationEdit.EditedProfile | organization/views_admin.py:907-930 | the name and type are stored stripped; the e-mail is stored stripped when sent and kept otherwise; the analysis flag is stored as sent or kept |
| OrganizationEdit.NewProfile | organization/views_admin.py:1003-1027 | a new profile has an empty e-mail, keeps the name, type and website as posted without stripping, and takes the cleaned Twitter handle |
| OrganizationEdit.CreateDecision | organization/views_admin.py:940-1001 | possible matches are shown exactly when the duplicate search finds some; an organization is created exactly when it finds none and the name is present; the create branch never reports an update |
| OrganizationEdit.DomainRule | organization/views_admin.py:1152-1164 | the domain and subdomain rule; `DomainChangesOnlyWhenAvailable` states that a domain changes only by being cleared or set to an available stripped value, and that a refused one is kept with its status reported |
| OrganizationEdit.SettingsSaved | organization/views_admin.py:1150-1202 | the account settings saved before the package loop; `ApplySettings` stores exactly these, and `EmptyAccountFormKeepsAccount` states that a form sending nothing changes nothing |
| OrganizationEdit.EditedAccount | organization/views_admin.py:1150-1209 | the saved account and status; `PackageFromMasterList`, `DomainChangesOnlyWhenAvailable` and `EmptyAccountFormKeepsAccount` state its package, domain and no-change rules |
| OrganizationEdit.AccountStatus | organization/views_admin.py:1150-1202 | the accumulated status; `DomainChangesOnlyWhenAvailable` states that a refused domain's status comes first, and `EmptyAccountFormKeepsAccount` that it is empty when nothing is refused |
| OrganizationEdit.EmptyAccountFormKeepsAccount | organization/views_admin.py:1150-1209 | a form sending no account field leaves the account and the status as they were, and with no refused domain or subdomain the status is empty |
| OrganizationEdit.OrganizationOnStage.Create | organization/views_admin.py:1001-1027 | a new organization holds the profile built from the form, with default account settings |
| OrganizationEdit.OrganizationOnStage.ApplyEditForm | organization/views_admin.py:907-930 | the stored profile becomes the edited profile of the form |
| OrganizationEdit.OrganizationOnStage.ApplyAnalysisNameAndContact | organization/views_admin.py:907-918 | the notes, name, handle, e-mail and Facebook fields are overwritten with stripped values when sent; the analysis flag is stored as sent |
| OrganizationEdit.OrganizationOnStage.ApplyWikipediaStateAndType | organization/views_admin.py:919-930 | the website, Wikipedia, endorsements, state and type fields are overwritten with stripped values when sent |
| OrganizationEdit.OrganizationOnStage.ApplyAccountForm | organization/views_admin.py:1150-1209 | the stored account settings and the status become those of the edited account |
| OrganizationEdit.OrganizationOnStage.ApplySettings | organization/views_admin.py:1152-1202 | the domain, branding, sharing and subdomain settings are saved by the account rules |
| OrganizationEdit.OrganizationOnStage.ApplyDomainAndBranding | organization/views_admin.py:1152-1175 | the domain follows the availability rule; favicon, analytics, verification, logo flag and logo are overwritten when sent |
| OrganizationEdit.OrganizationOnStage.ApplySharingAndSubdomain | organization/views_admin.py:1176-1202 | the pass code, sharing flag, introduction and social-share fields are overwritten when sent; the subdomain follows the availability rule |
| OrganizationEdit.OrganizationOnStage.ApplyDomain | organization/views_admin.py:1152-1164 | a blank domain clears the stored one; an available one is stored stripped; a refused one is kept out and its status reported |
| OrganizationEdit.OrganizationOnStage.ApplySubdomain | organization/views_admin.py:1190-1202 | the same availability rule for the subdomain |
| OrganizationEdit.OrganizationOnStage.ChooseFeaturePackage | organization/views_admin.py:1203-1209 | the package and bitmap change only to the last matching package of the master list |
| OrganizationEdit.EditProcess | organization/views_admin.py:841-1098 | a found organization is updated from the form, and only its profile columns may change; otherwise creation follows the create rule; issue links are reconciled only after a save |
| OrganizationEdit.EditAccountProcess | organization/views_admin.py:1109-1209 | an unknown organization gets the not-found status; a found one is edited by the account rules, and its profile is left unchanged |
| OrganizationEdit.SentFieldsStrippedOthersKept | organization/views_admin.py:907-930 | for every profile field the form carries, a sent value is stored stripped and an unsent one keeps its prior value; the name and type are always stored stripped, the analysis flag as sent |
| OrganizationEdit.EmptyFormKeepsOptionalFields | organization/views_admin.py:852-930 | a form that sends no optional field changes only the name and the type |
| OrganizationEdit.MissingNameBlanksIt | organization/views_admin.py:852-861 | a form without a name or type stores an empty name and the GROUP type, since the view defaults them |
| OrganizationEdit.EditIdempotent | organization/views_admin.py:907-930 | applying the same form twice gives what applying it once gives |
| OrganizationEdit.EditedFieldsAreStripped | organization/views_admin.py:907-930 | the name, the type and each of the nine optional text fields the form sent carry no surrounding whitespace after the update |
| OrganizationEdit.CreateNeedsNameAndNoDuplicate | organization/views_admin.py:940-999 | an organization is created exactly when it has a name and the duplicate search finds nothing; possible matches are shown exactly when the search finds some |
| OrganizationEdit.CreateIgnoresPostedEmail | organization/views_admin.py:940-1027 | on create, the posted e-mail affects neither the decision nor the stored profile, whose e-mail is empty |
| OrganizationEdit.TwitterRefreshCases | organization/views_admin.py:894-905 | a missing, empty or repeated handle triggers no refresh; a first handle, one replacing a blank handle, or one that differs from the stored handle does |
| OrganizationEdit.DomainChangesOnlyWhenAvailable | organization/views_admin.py:1152-1164 | the domain and subdomain change only by being cleared or set to an available stripped value; a refused domain is kept and its status reported |
| OrganizationEdit.PackageFromMasterList | organization/views_admin.py:1203-1209 | the package changes only to a master-list package of that name, with the bitmap of the last such package, and an unknown name changes nothing |
| ReservedDomains.StoredValue | organization/views_admin.py:2216-2230 | an empty posted value is stored as null; any other value is stored as its stripped form |
| ReservedDomains.UpdatedRow | organization/views_admin.py:2216-2230 | the entry after an update; `SavedColumns`, `CreateKeepsWhitespaceUpdateStrips` and `UpdateIdempotent` state that the id is kept, both columns follow the null-if-blank stripped rule, and re-posting changes nothing |
| ReservedDomains.CreatedRow | organization/views_admin.py:2240-2254 | the entry created; `SavedColumns` and `CreateKeepsWhitespaceUpdateStrips` state that at most one column is set, and that a posted full domain is stored as sent with no subdomain |
| ReservedDomains.ReservedDomain.Create | organization/views_admin.py:2240-2254 | a new entry holds the given columns |
| ReservedDomains.ReservedDomain.Update | organization/views_admin.py:2216-2230 | both columns are overwritten from the form, stripped, or null when empty |
| ReservedDomains.OrganizationClashes | organization/views_admin.py:2171-2175 | exactly the organizations whose chosen domain or subdomain equals the posted name, ignoring case |
| ReservedDomains.ReservedClashFiltersMeaning | organization/views_admin.py:2185-2192 | the filters on reserved entries admit exactly the other entries that use the posted name |
| ReservedDomains.ReservedClashes | organization/views_admin.py:2185-2192 | exactly the reserved entries, other than the one edited, that use the posted name |
| ReservedDomains.EditDecision | organization/views_admin.py:2138-2254 | it asks for a name when none is posted, refuses a taken name, updates a found entry, and otherwise creates a full domain or a subdomain entry |
| ReservedDomains.ReservedDomainEditProcess | organization/views_admin.py:2118-2254 | the outcome is the edit decision; only the entry that is updated or created changes |
| ReservedDomains.TakenNameNeverSaved | organization/views_admin.py:2167-2199 | a name used by an organization is refused, and that organization is reported |
| ReservedDomains.EditedEntryDoesNotClashWithItself | organization/views_admin.py:2185-2192 | the entry being edited never counts against its own name |
| ReservedDomains.SubdomainUncheckedWithFullDomain | organization/views_admin.py:2167-2199 | with a full domain posted, an organization clashes exactly when its chosen domain matches it, so the posted subdomain changes neither the clash check nor the decision |
| ReservedDomains.SavedColumns | organization/views_admin.py:2216-2254 | an update keeps the id and stores both columns by the null-if-empty rule; a create stores at most one column |
| ReservedDomains.CreateKeepsWhitespaceUpdateStrips | organization/views_admin.py:2216-2254 | for any posted full domain, a create stores it as sent while an update stores it stripped; the two agree exactly when it has no surrounding whitespace |
| ReservedDomains.UpdateIdempotent | organization/views_admin.py:2216-2230 | re-posting the stored values changes nothing |
| ReservedDomains.ReservedWordFilters | organization/views_admin.py:2297-2315 | one reserved-entry filter per search word, in order |
| ReservedDomains.OrganizationWordFilters | organization/views_admin.py:2349-2367 | one organization filter per search word, in order |
| ReservedDomains.ReservedSearchMeaning | organization/views_admin.py:2297-2315 | the word filters admit an entry exactly when every word occurs in its full domain or subdomain |
| ReservedDomains.ReservedKindMeaning | organization/views_admin.py:2285-2295 | the kind filters admit exactly the entries of the kind asked for |
| ReservedDomains.ReservedFiltersMeaning | organization/views_admin.py:2285-2315 | the reserved filter chain admits exactly the entries the listing rule admits |
| ReservedDomains.OrganizationSearchMeaning | organization/views_admin.py:2349-2367 | the word filters admit an organization exactly when every word occurs in its chosen domain or subdomain |
| ReservedDomains.OrganizationKindMeaning | organization/views_admin.py:2335-2347 | the kind filters admit exactly the organizations of the kind asked for |
| ReservedDomains.OrganizationFiltersMeaning | organization/views_admin.py:2335-2367 | the organization filter chain admits exactly the organizations the listing rule admits |
| ReservedDomains.ReservedStages | organization/views_admin.py:2285-2315 | the reserved query after its stages holds exactly the listed entries |
| ReservedDomains.OrganizationStages | organization/views_admin.py:2335-2367 | the organization query after its stages holds exactly the listed organizations |
| ReservedDomains.ReservedDomainListView | organization/views_admin.py:2266-2377 | both counts are the sizes of the listed selections, and both shown lists are those selections cut by the display caps |
| ReservedDomains.BothKindsLikeNeither | organization/views_admin.py:2285-2295 | asking for both kinds lists the same as asking for neither |
| ReservedDomains.EmptyColumnTreatedDifferently | organization/views_admin.py:2285-2347 | when full domains are asked for, any reserved entry with an empty full-domain column is never listed, while any organization with an empty chosen domain is listed exactly when the search admits it |
| ReservedDomains.SearchRequiresEveryWord | organization/views_admin.py:2297-2315 | a listed entry contains every search word in one of its two columns |
| PositionEdit.PostedStance | organization/views_admin.py:1742 | the stance defaults to SUPPORT when none is posted |
| PositionEdit.ChooseSubject | organization/views_admin.py:1783-1889 | a non-zero candidate id is looked up first; otherwise the measure id; a missing candidate or measure sends the admin back with its own refusal; with neither the request is refused; a chosen subject names exactly one of the two |
| PositionEdit.ChooseSubjectAsWritten | organization/views_admin.py:1829-1839 | a form naming no candidate and a measure that is not stored ends in the escaped lookup exception |
| PositionEdit.MeasureRedirectUnreachable | organization/views_admin.py:1829-1872 | as written the "could not find measure" refusal never happens, and the view differs from the intended choice exactly on a form naming a missing measure and no candidate |
| PositionEdit.MissingMeasureRaises | organization/views_admin.py:1829-1839 | a form with measure 7 and no candidate, with no measure stored, raises as written and is refused with the redirect as intended |
| PositionEdit.PositionDecision | organization/views_admin.py:1775-1988 | a missing organization is reported; a save needs the save button and a chosen subject; an update from the edit form needs the position's we_vote_id to have been found |
| PositionEdit.SaveDecision | organization/views_admin.py:1893-1931 | with the organization found, a subject chosen and the save button set: a position found by we_vote_id is updated as from the edit form; otherwise the lookup for the chosen subject decides between several found, one updated and a new one created |
| PositionEdit.Overwritten | organization/views_admin.py:1938-1945 | the new form overwrites the statement and link only with non-empty values; the edit form always overwrites them |
| PositionEdit.FilledIfBlank | organization/views_admin.py:1934-1953 | the owner's we_vote_id is filled in only when the position has none |
| PositionEdit.UpdatedPosition | organization/views_admin.py:1934-1953 | the position after an update; `ConditionalOverwrite`, `UpdateIdempotent` and `UpdateAfterCreateKeepsIt` state that the organization is kept, the texts follow the conditional overwrite, and saving again changes nothing |
| PositionEdit.NewPosition | organization/views_admin.py:1969-1988 | the position created from the form; `UpdateAfterCreateKeepsIt` states that saving the same form on it again leaves it unchanged |
| PositionEdit.PositionOnStage.Create | organization/views_admin.py:1969-1988 | a new position holds the values built from the form and the subject |
| PositionEdit.PositionOnStage.ApplyUpdate | organization/views_admin.py:1934-1953 | the stored position becomes the updated position |
| PositionEdit.PositionOnStage.ApplyPostedValues | organization/views_admin.py:1934-1945 | the stance and election are set; the statement and link follow the conditional overwrite; the owner is filled in when blank |
| PositionEdit.PositionOnStage.ApplySubject | organization/views_admin.py:1946-1953 | the candidate or measure fields become those of the chosen subject |
| PositionEdit.PositionEditProcess | organization/views_admin.py:1726-2014 | the outcome is the position decision; after an update every looked-up position other than the one saved is unchanged |
| PositionEdit.MissingBothIdsUnreachable | organization/views_admin.py:1873-1889 | the "neither id" refusal after the lookups can never be reached |
| PositionEdit.CandidateTakesPrecedence | organization/views_admin.py:1783-1828 | with both ids posted, only the candidate matters, and the subject has no measure |
| PositionEdit.NegativeIdsCount | organization/views_admin.py:1783-1828 | a negative candidate id is still looked up, since the view tests for non-zero |
| PositionEdit.ConditionalOverwrite | organization/views_admin.py:1938-1945 | the edit form overwrites the statement and link; the new form keeps them when blank; the organization id is kept |
| PositionEdit.UpdateIdempotent | organization/views_admin.py:1934-1953 | saving the same form twice changes nothing the second time |
| PositionEdit.UpdateAfterCreateKeepsIt | organization/views_admin.py:1934-1988 | re-saving the form on the position it created leaves that position unchanged |
| PositionEdit.NoSaveButtonSavesNothing | organization/views_admin.py:1931 | without the save button nothing is updated or created |
| PositionEdit.MultipleStopsSave | organization/views_admin.py:1901-1928 | several stored positions stop the save, unless the position was found by its we_vote_id |
| SupportOppose.VoterIdMissing | support_oppose_deciding/controllers.py:168-174 | the voter-missing status has a trailing space exactly for the two "stop" endpoints |
| SupportOppose.StatusPrefix | support_oppose_deciding/controllers.py:180-298 | the eight status prefixes of the save endpoints; `StopMeasurePrefixesHaveNoSpace` states that exactly the two stop-measure prefixes lack the trailing space, and `ManagerStatusRecoverable` that the manager's status follows the prefix |
| SupportOppose.SaveProcess | support_oppose_deciding/controllers.py:158-308 | a toggle is made exactly when the device id is valid, has a voter, and the candidate id or the measure id is positive; it is the endpoint's action by that voter on the candidate when the candidate id is positive, and on the measure otherwise; success is the manager's; a refusal is never a success |
| SupportOppose.VoterSupportingSave | support_oppose_deciding/controllers.py:273-308 | a toggle it makes turns support on |
| SupportOppose.VoterStopSupportingSave | support_oppose_deciding/controllers.py:235-270 | a toggle it makes turns support off |
| SupportOppose.VoterOpposingSave | support_oppose_deciding/controllers.py:158-194 | a toggle it makes turns opposition on |
| SupportOppose.VoterStopOpposingSave | support_oppose_deciding/controllers.py:197-232 | a toggle it makes turns opposition off |
| SupportOppose.InvalidDeviceIdTogglesNothing | support_oppose_deciding/controllers.py:273-281 | an invalid device id gives the device-id-missing envelope, makes no toggle, and never reads the voter lookup |
| SupportOppose.MissingVoterTogglesNothing | support_oppose_deciding/controllers.py:168-174 | a device without a voter is refused with no toggle and a voter-id-missing status |
| SupportOppose.CandidateTakesPrecedence | support_oppose_deciding/controllers.py:292-299 | with a positive candidate id only the candidate is toggled, whatever the measure id |
| SupportOppose.NoIdsRefused | support_oppose_deciding/controllers.py:300-302 | without a positive id the save is refused with the ids-missing status |
| SupportOppose.ManagerStatusRecoverable | support_oppose_deciding/controllers.py:177-190 | a dispatched status is the fixed prefix followed by the manager's status |
| SupportOppose.StopMeasurePrefixesHaveNoSpace | support_oppose_deciding/controllers.py:216-223 | exactly the two "stop" prefixes for measures end without a space |
| SupportOppose.PositionsCountForCandidateCampaign | support_oppose_deciding/controllers.py:63-105 | always a success with a count, reporting followed or not-followed positions as asked |
| SupportOppose.PositionsCountForContestMeasure | support_oppose_deciding/controllers.py:108-150 | always a success with a count, reporting followed or not-followed positions as asked |
| SupportOppose.PositionsCountForApi | support_oppose_deciding/controllers.py:23-60 | the device id and voter checks come first; success holds exactly when both pass and the candidate id or the measure id is positive, and a count is present exactly on success |
| SupportOppose.SupportCountForApi | support_oppose_deciding/controllers.py:153-155 | success exactly when the device has a voter and an id is positive; then the count is the number of SUPPORT positions held by organizations the voter follows |
| SupportOppose.OpposeCountForApi | support_oppose_deciding/controllers.py:17-20 | success exactly when the device has a voter and an id is positive; then the count is the number of OPPOSE positions held by organizations the voter follows |
| SupportOppose.SupportAndOpposeDifferOnlyInStance | support_oppose_deciding/controllers.py:17-20 | if the position lists do not depend on the stance, support and oppose counts are equal |
| SupportOppose.CandidateCountIsFollowedPositions | support_oppose_deciding/controllers.py:42-46 | a candidate's count is the number of followed positions with that stance |
| SupportOppose.MeasureIdNeverConsulted | support_oppose_deciding/controllers.py:47-51 | the measure branch counts positions retrieved for the candidate id, so the measure id never changes the answer |
| SupportOppose.CountWithoutIdsRefused | support_oppose_deciding/controllers.py:52-54 | without a positive id the count is refused with its own ids-missing status |

## Left out

- Text.Positive: it approximates `positive_value_exists` as a non-empty string or a positive integer; that helper's own rules for strings such as "0" or "false" are not part of this model.
- Text.Lower: case-insensitive matching folds ASCII letters only; Unicode case folding is not modelled.
- OrganizationModel: the values of GROUP, INDIVIDUAL and UNKNOWN are assumed, and so are the stance values SUPPORT and OPPOSE in Stances, because the model classes that define them are not part of this model.
- The conflict classification, the follower and membership movers, the merge of two organizations, the duplicate search, the domain availability checks, the position toggles and the position counters are outside the shown code. They are inputs, so their own effects are not modelled.
- Queryset ordering (`order_by`, including the Twitter sort) is not modelled: a query keeps the stored order.
- The Twitter refresh, tweet retrieval and analysis, and the import from the master server are network I/O.
- Cache and voter-guide refreshes after a save, and the sync-out JSON dump, are side effects outside the decision logic.
- Messages, redirects and templates are not modelled. The views' results are outcome tags, and the form values they re-render are not kept.
- Authority checks (`voter_has_authority`, `@login_required`) belong to the session layer.
- The compare view, the new/edit form views and the position list and delete views only render pages, so they are not modelled.
- The Vote Smart schema, the API documentation dictionary and the empty API test are not part of this model.
- Integer parsing of posted values (`convert_to_int`) is not modelled: posted ids are integers.
- Exceptions from the database are not modelled. A follower-mover result without a membership key, which raises in the view, is a refusal outcome of its own.
- OrganizationList.OrganizationListView: the issue filter's subquery, which finds the organizations linked to the issues asked for, is an input of the request (the list of their we_vote_ids).
- OrganizationEdit.EditProcess: the Twitter link creation, voter-guide creation and election lookup after the save are left out.
- OrganizationEdit.OrganizationOnStage.ApplyAnalysisNameAndContact: the name and type are always written, because the view defaults them to `''` and GROUP. This overrides the reading that fields not submitted keep their value.
- PositionEdit.PositionEditProcess: the position lookups by we_vote_id and by ballot item are inputs, and the voter-guide update after a save is left out.
- ReservedDomains.ReservedDomain.Update: the success message text is not modelled.
- PositionEdit.ChooseSubject: the candidate and measure lookups return one row or none; a lookup that finds several rows, which the view logs and then treats as not found (and, for a measure, lets raise), is not modelled.

## Findings

| source | as written | input that shows it | evidently intended | confidence | as-written member | corrected member |
|---|---|---|---|---|---|---|
| organization/views_admin.py:1829-1872 | the measure lookup `ContestMeasure.objects.get` is guarded by `except CandidateCampaign.DoesNotExist`, so a missing measure raises out of the view and the "Could not find measure" redirect after it is never reached | a position form with candidate id 0 and measure id 7, where no measure 7 is stored | the admin is sent back to the edit or new form with the "could not find measure" message | not executed | PositionEdit.ChooseSubjectAsWritten, PositionEdit.MeasureRedirectUnreachable, PositionEdit.MissingMeasureRaises | PositionEdit.ChooseSubject |
