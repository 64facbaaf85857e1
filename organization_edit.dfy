/** Saving the organization edit forms: the profile form of
    `organization_edit_process_view` (update an existing organization, or
    create one, then reconcile its issue links) and the account form of
    `organization_edit_account_process_view` (domain names gated by an
    availability check, feature package chosen from the master list). */
module OrganizationEdit {
  import opened Wrappers
  import opened Text
  import OrganizationModel
  import IssueLinks

  /** The profile columns the edit form writes. */
  datatype Profile = Profile(
    name: string,
    orgType: string,
    issueAnalysisAdminNotes: Option<string>,
    issueAnalysisDone: Option<string>,
    twitterHandle: Option<string>,
    email: Option<string>,
    facebook: Option<string>,
    website: Option<string>,
    wikipediaPageTitle: Option<string>,
    wikipediaPhotoUrl: Option<string>,
    endorsementsApiUrl: Option<string>,
    stateServedCode: Option<string>)

  /** The account columns the account form writes. */
  datatype Account = Account(
    domain: Option<string>,
    faviconUrl: Option<string>,
    googleAnalyticsAccountNumber: Option<string>,
    htmlVerificationString: Option<string>,
    hideWeVoteLogo: bool,
    logoUrl: Option<string>,
    apiPassCode: Option<string>,
    preventSharingOpinions: bool,
    introductionText: Option<string>,
    introductionTitle: Option<string>,
    socialShareDescription: Option<string>,
    socialShareImageUrl: Option<string>,
    subdomain: Option<string>,
    featurePackage: Option<string>,
    featuresProvidedBitmap: int)

  /** The posted profile form. `None` is a field the form did not send (the
      view reads those with a default of `False`); the name and the type are
      read with defaults of their own (`''` and GROUP) and so are always
      there. `selectedIssues` is the list of ticked issues. */
  datatype EditForm = EditForm(
    name: string,
    orgType: string,
    issueAnalysisAdminNotes: Option<string>,
    issueAnalysisDone: Option<string>,
    twitterHandle: Option<string>,
    email: Option<string>,
    facebook: Option<string>,
    website: Option<string>,
    wikipediaPageTitle: Option<string>,
    wikipediaPhotoUrl: Option<string>,
    endorsementsApiUrl: Option<string>,
    stateServedCode: Option<string>,
    selectedIssues: seq<string>)

  /** Reads the form the way the view does: a missing name becomes `''`, a
      missing type becomes GROUP, any other missing field stays absent. */
  function ReadEditForm(post: map<string, string>, selectedIssues: seq<string>): (f: EditForm)
    ensures f.name == (if "organization_name" in post then post["organization_name"] else "")
    ensures f.orgType == (if "organization_type" in post then post["organization_type"] else OrganizationModel.GROUP)
    ensures f.email.Some? <==> "organization_email" in post
    ensures f.website.Some? <==> "organization_website" in post
    ensures f.twitterHandle.Some? <==> "organization_twitter_handle" in post
    ensures f.stateServedCode.Some? <==> "state_served_code" in post
    ensures f.selectedIssues == selectedIssues
  {
    EditForm(
      MapGet(post, "organization_name", ""),
      MapGet(post, "organization_type", OrganizationModel.GROUP),
      Posted(post, "issue_analysis_admin_notes"),
      Posted(post, "issue_analysis_done"),
      Posted(post, "organization_twitter_handle"),
      Posted(post, "organization_email"),
      Posted(post, "organization_facebook"),
      Posted(post, "organization_website"),
      Posted(post, "wikipedia_page_title"),
      Posted(post, "wikipedia_photo_url"),
      Posted(post, "organization_endorsements_api_url"),
      Posted(post, "state_served_code"),
      selectedIssues)
  }

  function Posted(post: map<string, string>, key: string): Option<string> {
    if key in post then Some(post[key]) else None
  }

  /** `if value is not False: field = value.strip()` */
  function Overwrite(prior: Option<string>, posted: Option<string>): Option<string> {
    if posted.Some? then Some(Strip(posted.value)) else prior
  }

  /** The profile after an update. `extract` is the Twitter-handle clean-up
      the view applies before anything else (a helper outside this model).
      Every field is stripped except the issue-analysis flag. */
  function EditedProfile(p: Profile, f: EditForm, extract: Option<string> -> Option<string>): (r: Profile)
    ensures r.name == Strip(f.name) && r.orgType == Strip(f.orgType)
    ensures f.issueAnalysisDone.Some? ==> r.issueAnalysisDone == f.issueAnalysisDone
    ensures f.issueAnalysisDone.None? ==> r.issueAnalysisDone == p.issueAnalysisDone
    ensures f.email.None? ==> r.email == p.email
    ensures f.email.Some? ==> r.email == Some(Strip(f.email.value))
  {
    Profile(
      Strip(f.name),
      Strip(f.orgType),
      Overwrite(p.issueAnalysisAdminNotes, f.issueAnalysisAdminNotes),
      if f.issueAnalysisDone.Some? then f.issueAnalysisDone else p.issueAnalysisDone,
      Overwrite(p.twitterHandle, extract(f.twitterHandle)),
      Overwrite(p.email, f.email),
      Overwrite(p.facebook, f.facebook),
      Overwrite(p.website, f.website),
      Overwrite(p.wikipediaPageTitle, f.wikipediaPageTitle),
      Overwrite(p.wikipediaPhotoUrl, f.wikipediaPhotoUrl),
      Overwrite(p.endorsementsApiUrl, f.endorsementsApiUrl),
      Overwrite(p.stateServedCode, f.stateServedCode))
  }

  /** The profile of a newly created organization: values as posted, not
      stripped; the e-mail is always `''` because the view blanks it before
      the duplicate search; fields not sent keep the column default, here
      absent. */
  function NewProfile(f: EditForm, extract: Option<string> -> Option<string>): (r: Profile)
    ensures r.email == Some("")
    ensures r.name == f.name && r.orgType == f.orgType && r.website == f.website
    ensures r.twitterHandle == extract(f.twitterHandle)
  {
    Profile(
      f.name, f.orgType, f.issueAnalysisAdminNotes, f.issueAnalysisDone,
      extract(f.twitterHandle), Some(""), f.facebook, f.website,
      f.wikipediaPageTitle, f.wikipediaPhotoUrl, f.endorsementsApiUrl, f.stateServedCode)
  }

  /** Column defaults of a new organization's account settings. */
  const DefaultAccount := Account(None, None, None, None, false, None, None, false,
                                  None, None, None, None, None, None, 0)

  /** What the profile form ends in. */
  datatype EditOutcome =
    | Updated
    | Created
    | PossibleMatchesShown   // the duplicate search found candidates
    | MissingName            // no organization is created without a name

  /** `organization_search_find_any_possibilities(name, handle, website, email)`,
      a helper outside this model. */
  type DuplicateSearch = (string, Option<string>, Option<string>, string) -> bool

  /** The create branch: duplicates first, then the name requirement. */
  function CreateDecision(f: EditForm, extract: Option<string> -> Option<string>,
                          findAny: DuplicateSearch): (r: EditOutcome)
    ensures r == PossibleMatchesShown <==> findAny(f.name, extract(f.twitterHandle), f.website, "")
    ensures r == Created <==> !findAny(f.name, extract(f.twitterHandle), f.website, "") && Positive(f.name)
    ensures r != Updated
  {
    if findAny(f.name, extract(f.twitterHandle), f.website, "") then PossibleMatchesShown
    else if !Positive(f.name) then MissingName
    else Created
  }

  /** A Twitter-handle change that triggers a profile refresh from Twitter. */
  predicate NewTwitterHandle(prior: Option<string>, incoming: Option<string>) {
    incoming.Some? && Positive(incoming.value) &&
    (prior.None? || !Positive(prior.value) || prior.value != incoming.value)
  }

  /** A domain-availability answer: `full_domain_string_available` or
      `subdomain_string_available`, helpers outside this model. */
  datatype Availability = Availability(available: bool, status: string)

  /** One row of the master feature-package table. */
  datatype FeaturePackage = FeaturePackage(name: string, featuresProvidedBitmap: int)

  /** The posted account form; `None` is a field the form did not send. */
  datatype AccountForm = AccountForm(
    domain: Option<string>,
    faviconUrl: Option<string>,
    googleAnalyticsAccountNumber: Option<string>,
    htmlVerificationString: Option<string>,
    hideWeVoteLogo: Option<string>,
    logoUrl: Option<string>,
    apiPassCode: Option<string>,
    preventSharingOpinions: Option<string>,
    introductionText: Option<string>,
    introductionTitle: Option<string>,
    socialShareDescription: Option<string>,
    socialShareImageUrl: Option<string>,
    subdomain: Option<string>,
    featurePackage: Option<string>)

  /** A domain field: unsent keeps it; blank clears it to `None`; otherwise
      it is saved stripped when the availability check passes, and left as it
      was, with the check's status reported, when it fails. */
  function DomainRule(prior: Option<string>, posted: Option<string>,
                      check: string -> Availability): (Option<string>, string)
  {
    if posted.None? then (prior, "")
    else if !Positive(posted.value) then (None, "")
    else if check(posted.value).available then (Some(Strip(posted.value)), "")
    else (prior, check(posted.value).status)
  }

  /** The last package of `packages` named `chosen`: the loop overwrites on
      every match, so the last one wins. */
  function LastMatch(packages: seq<FeaturePackage>, chosen: string): (r: Option<FeaturePackage>)
    ensures r.None? <==> forall i :: 0 <= i < |packages| ==> packages[i].name != chosen
    ensures r.Some? ==> exists k :: 0 <= k < |packages| && packages[k] == r.value &&
                          r.value.name == chosen &&
                          forall j :: k < j < |packages| ==> packages[j].name != chosen
  {
    if packages == [] then None
    else
      var init, last := packages[..|packages| - 1], packages[|packages| - 1];
      if last.name == chosen then Some(last)
      else
        var r := LastMatch(init, chosen);
        if r.Some? then
          var k :| 0 <= k < |init| && init[k] == r.value && r.value.name == chosen &&
                   forall j :: k < j < |init| ==> init[j].name != chosen;
          assert packages[k] == r.value;
          r
        else r
  }

  /** The package columns after the feature-package loop. */
  function ChosenPackage(a: Account, packages: seq<FeaturePackage>, chosen: string): Account {
    match LastMatch(packages, chosen)
    case None => a
    case Some(p) => a.(featurePackage := Some(chosen), featuresProvidedBitmap := p.featuresProvidedBitmap)
  }

  /** The account settings after every field but the feature package. */
  function SettingsSaved(a: Account, f: AccountForm, domainCheck: string -> Availability,
                         subdomainCheck: string -> Availability): Account
  {
    Account(
      DomainRule(a.domain, f.domain, domainCheck).0,
      if f.faviconUrl.Some? then f.faviconUrl else a.faviconUrl,
      Overwrite(a.googleAnalyticsAccountNumber, f.googleAnalyticsAccountNumber),
      Overwrite(a.htmlVerificationString, f.htmlVerificationString),
      if f.hideWeVoteLogo.Some? then Positive(f.hideWeVoteLogo.value) else a.hideWeVoteLogo,
      Overwrite(a.logoUrl, f.logoUrl),
      Overwrite(a.apiPassCode, f.apiPassCode),
      if f.preventSharingOpinions.Some? then Positive(f.preventSharingOpinions.value) else a.preventSharingOpinions,
      if f.introductionText.Some? then f.introductionText else a.introductionText,
      if f.introductionTitle.Some? then f.introductionTitle else a.introductionTitle,
      Overwrite(a.socialShareDescription, f.socialShareDescription),
      Overwrite(a.socialShareImageUrl, f.socialShareImageUrl),
      DomainRule(a.subdomain, f.subdomain, subdomainCheck).0,
      a.featurePackage,
      a.featuresProvidedBitmap)
  }

  /** The account settings after the form is saved, and the status text the
      view accumulates. */
  function EditedAccount(a: Account, f: AccountForm, domainCheck: string -> Availability,
                         subdomainCheck: string -> Availability,
                         packages: seq<FeaturePackage>): (Account, string)
  {
    var settings := SettingsSaved(a, f, domainCheck, subdomainCheck);
    (if f.featurePackage.Some? then ChosenPackage(settings, packages, f.featurePackage.value) else settings,
     AccountStatus(a, f, domainCheck, subdomainCheck))
  }

  /** The status text: the domain refusal, then the subdomain refusal. */
  function AccountStatus(a: Account, f: AccountForm, domainCheck: string -> Availability,
                         subdomainCheck: string -> Availability): string
  {
    DomainRule(a.domain, f.domain, domainCheck).1 + DomainRule(a.subdomain, f.subdomain, subdomainCheck).1
  }

  /** Status when the account form names no stored organization. */
  const AccountNotFoundStatus := "EDIT_ACCOUNT_PROCESS_ORGANIZATION_NOT_FOUND "

  /** The organization being edited (`organization_on_stage`). */
  class OrganizationOnStage {
    var name: string
    var orgType: string
    var issueAnalysisAdminNotes: Option<string>
    var issueAnalysisDone: Option<string>
    var twitterHandle: Option<string>
    var email: Option<string>
    var facebook: Option<string>
    var website: Option<string>
    var wikipediaPageTitle: Option<string>
    var wikipediaPhotoUrl: Option<string>
    var endorsementsApiUrl: Option<string>
    var stateServedCode: Option<string>

    var chosenDomain: Option<string>
    var chosenFaviconUrl: Option<string>
    var chosenGoogleAnalyticsAccountNumber: Option<string>
    var chosenHtmlVerificationString: Option<string>
    var chosenHideWeVoteLogo: bool
    var chosenLogoUrl: Option<string>
    var chosenApiPassCode: Option<string>
    var chosenPreventSharingOpinions: bool
    var chosenIntroductionText: Option<string>
    var chosenIntroductionTitle: Option<string>
    var chosenSocialShareDescription: Option<string>
    var chosenSocialShareImageUrl: Option<string>
    var chosenSubdomain: Option<string>
    var chosenFeaturePackage: Option<string>
    var featuresProvidedBitmap: int

    function CurrentProfile(): Profile
      reads this
    {
      Profile(name, orgType, issueAnalysisAdminNotes, issueAnalysisDone,
                               twitterHandle, email, facebook, website, wikipediaPageTitle,
                               wikipediaPhotoUrl, endorsementsApiUrl, stateServedCode)
    }

    function CurrentAccount(): Account
      reads this
    {
      Account(chosenDomain, chosenFaviconUrl, chosenGoogleAnalyticsAccountNumber,
                               chosenHtmlVerificationString, chosenHideWeVoteLogo, chosenLogoUrl,
                               chosenApiPassCode, chosenPreventSharingOpinions, chosenIntroductionText,
                               chosenIntroductionTitle, chosenSocialShareDescription,
                               chosenSocialShareImageUrl, chosenSubdomain, chosenFeaturePackage,
                               featuresProvidedBitmap)
    }

    /** `Organization(organization_name=...)` followed by the create branch's
        field assignments. */
    constructor Create(f: EditForm, extract: Option<string> -> Option<string>)
      ensures CurrentProfile() == NewProfile(f, extract)
      ensures CurrentAccount() == DefaultAccount
    {
      name := f.name;
      orgType := f.orgType;
      issueAnalysisAdminNotes := f.issueAnalysisAdminNotes;
      issueAnalysisDone := f.issueAnalysisDone;
      twitterHandle := extract(f.twitterHandle);
      email := Some("");
      facebook := f.facebook;
      website := f.website;
      wikipediaPageTitle := f.wikipediaPageTitle;
      wikipediaPhotoUrl := f.wikipediaPhotoUrl;
      endorsementsApiUrl := f.endorsementsApiUrl;
      stateServedCode := f.stateServedCode;
      chosenDomain, chosenFaviconUrl, chosenGoogleAnalyticsAccountNumber := None, None, None;
      chosenHtmlVerificationString, chosenHideWeVoteLogo, chosenLogoUrl := None, false, None;
      chosenApiPassCode, chosenPreventSharingOpinions := None, false;
      chosenIntroductionText, chosenIntroductionTitle := None, None;
      chosenSocialShareDescription, chosenSocialShareImageUrl := None, None;
      chosenSubdomain, chosenFeaturePackage, featuresProvidedBitmap := None, None, 0;
    }

    /** The update branch of the profile form, field after field; a field
        the form did not send is left as it is. */
    method ApplyEditForm(f: EditForm, extract: Option<string> -> Option<string>)
      modifies this`name, this`orgType, this`issueAnalysisAdminNotes, this`issueAnalysisDone
      modifies this`twitterHandle, this`email, this`facebook, this`website
      modifies this`wikipediaPageTitle, this`wikipediaPhotoUrl, this`endorsementsApiUrl, this`stateServedCode
      ensures CurrentProfile() == EditedProfile(old(CurrentProfile()), f, extract)
    {
      ghost var edited := EditedProfile(CurrentProfile(), f, extract);
      var handle := extract(f.twitterHandle);
      ApplyAnalysisNameAndContact(f, handle);
      ApplyWikipediaStateAndType(f);
      assert name == edited.name && twitterHandle == edited.twitterHandle;
    }

    /** The fields the view assigns first. */
    method ApplyAnalysisNameAndContact(f: EditForm, handle: Option<string>)
      modifies this`issueAnalysisAdminNotes, this`issueAnalysisDone, this`name
      modifies this`twitterHandle, this`email, this`facebook
      ensures issueAnalysisAdminNotes == Overwrite(old(issueAnalysisAdminNotes), f.issueAnalysisAdminNotes)
      ensures issueAnalysisDone == if f.issueAnalysisDone.Some? then f.issueAnalysisDone else old(issueAnalysisDone)
      ensures name == Strip(f.name)
      ensures twitterHandle == Overwrite(old(twitterHandle), handle)
      ensures email == Overwrite(old(email), f.email)
      ensures facebook == Overwrite(old(facebook), f.facebook)
    {
      issueAnalysisAdminNotes := Overwrite(issueAnalysisAdminNotes, f.issueAnalysisAdminNotes);
      issueAnalysisDone := if f.issueAnalysisDone.Some? then f.issueAnalysisDone else issueAnalysisDone;
      name := Strip(f.name);
      twitterHandle := Overwrite(twitterHandle, handle);
      email := Overwrite(email, f.email);
      facebook := Overwrite(facebook, f.facebook);
    }

    /** The fields the view assigns last. */
    method ApplyWikipediaStateAndType(f: EditForm)
      modifies this`website, this`wikipediaPageTitle, this`wikipediaPhotoUrl
      modifies this`endorsementsApiUrl, this`stateServedCode, this`orgType
      ensures website == Overwrite(old(website), f.website)
      ensures wikipediaPageTitle == Overwrite(old(wikipediaPageTitle), f.wikipediaPageTitle)
      ensures wikipediaPhotoUrl == Overwrite(old(wikipediaPhotoUrl), f.wikipediaPhotoUrl)
      ensures endorsementsApiUrl == Overwrite(old(endorsementsApiUrl), f.endorsementsApiUrl)
      ensures stateServedCode == Overwrite(old(stateServedCode), f.stateServedCode)
      ensures orgType == Strip(f.orgType)
    {
      website := Overwrite(website, f.website);
      wikipediaPageTitle := Overwrite(wikipediaPageTitle, f.wikipediaPageTitle);
      wikipediaPhotoUrl := Overwrite(wikipediaPhotoUrl, f.wikipediaPhotoUrl);
      endorsementsApiUrl := Overwrite(endorsementsApiUrl, f.endorsementsApiUrl);
      stateServedCode := Overwrite(stateServedCode, f.stateServedCode);
      orgType := Strip(f.orgType);
    }

    /** The update branch of the account form: the domain, the settings sent,
        the subdomain, then the feature package. */
    method ApplyAccountForm(f: AccountForm, domainCheck: string -> Availability,
                            subdomainCheck: string -> Availability,
                            packages: seq<FeaturePackage>) returns (status: string)
      modifies this`chosenDomain, this`chosenFaviconUrl, this`chosenGoogleAnalyticsAccountNumber
      modifies this`chosenHtmlVerificationString, this`chosenHideWeVoteLogo, this`chosenLogoUrl
      modifies this`chosenApiPassCode, this`chosenPreventSharingOpinions, this`chosenIntroductionText
      modifies this`chosenIntroductionTitle, this`chosenSocialShareDescription
      modifies this`chosenSocialShareImageUrl, this`chosenSubdomain
      modifies this`chosenFeaturePackage, this`featuresProvidedBitmap
      ensures (CurrentAccount(), status) == EditedAccount(old(CurrentAccount()), f, domainCheck, subdomainCheck, packages)
    {
      status := ApplySettings(f, domainCheck, subdomainCheck);
      if f.featurePackage.Some? {
        ChooseFeaturePackage(f.featurePackage.value, packages);
      }
    }

    /** Every account field but the feature package, in the view's order. */
    method ApplySettings(f: AccountForm, domainCheck: string -> Availability,
                         subdomainCheck: string -> Availability) returns (status: string)
      modifies this`chosenDomain, this`chosenFaviconUrl, this`chosenGoogleAnalyticsAccountNumber
      modifies this`chosenHtmlVerificationString, this`chosenHideWeVoteLogo, this`chosenLogoUrl
      modifies this`chosenApiPassCode, this`chosenPreventSharingOpinions, this`chosenIntroductionText
      modifies this`chosenIntroductionTitle, this`chosenSocialShareDescription
      modifies this`chosenSocialShareImageUrl, this`chosenSubdomain
      ensures CurrentAccount() == SettingsSaved(old(CurrentAccount()), f, domainCheck, subdomainCheck)
      ensures status == AccountStatus(old(CurrentAccount()), f, domainCheck, subdomainCheck)
    {
      var domainStatus := ApplyDomainAndBranding(f, domainCheck);
      var subdomainStatus := ApplySharingAndSubdomain(f, subdomainCheck);
      status := domainStatus + subdomainStatus;
    }

    /** The domain, then the settings up to the logo. */
    method ApplyDomainAndBranding(f: AccountForm, domainCheck: string -> Availability) returns (status: string)
      modifies this`chosenDomain, this`chosenFaviconUrl, this`chosenGoogleAnalyticsAccountNumber
      modifies this`chosenHtmlVerificationString, this`chosenHideWeVoteLogo, this`chosenLogoUrl
      ensures (chosenDomain, status) == DomainRule(old(chosenDomain), f.domain, domainCheck)
      ensures chosenFaviconUrl == if f.faviconUrl.Some? then f.faviconUrl else old(chosenFaviconUrl)
      ensures chosenGoogleAnalyticsAccountNumber == Overwrite(old(chosenGoogleAnalyticsAccountNumber), f.googleAnalyticsAccountNumber)
      ensures chosenHtmlVerificationString == Overwrite(old(chosenHtmlVerificationString), f.htmlVerificationString)
      ensures chosenHideWeVoteLogo == if f.hideWeVoteLogo.Some? then Positive(f.hideWeVoteLogo.value) else old(chosenHideWeVoteLogo)
      ensures chosenLogoUrl == Overwrite(old(chosenLogoUrl), f.logoUrl)
    {
      status := ApplyDomain(f.domain, domainCheck);
      chosenFaviconUrl := if f.faviconUrl.Some? then f.faviconUrl else chosenFaviconUrl;
      chosenGoogleAnalyticsAccountNumber := Overwrite(chosenGoogleAnalyticsAccountNumber, f.googleAnalyticsAccountNumber);
      chosenHtmlVerificationString := Overwrite(chosenHtmlVerificationString, f.htmlVerificationString);
      chosenHideWeVoteLogo := if f.hideWeVoteLogo.Some? then Positive(f.hideWeVoteLogo.value) else chosenHideWeVoteLogo;
      chosenLogoUrl := Overwrite(chosenLogoUrl, f.logoUrl);
    }

    /** The settings after the logo, then the subdomain. */
    method ApplySharingAndSubdomain(f: AccountForm, subdomainCheck: string -> Availability) returns (status: string)
      modifies this`chosenApiPassCode, this`chosenPreventSharingOpinions, this`chosenIntroductionText
      modifies this`chosenIntroductionTitle, this`chosenSocialShareDescription, this`chosenSocialShareImageUrl
      modifies this`chosenSubdomain
      ensures chosenApiPassCode == Overwrite(old(chosenApiPassCode), f.apiPassCode)
      ensures chosenPreventSharingOpinions ==
                if f.preventSharingOpinions.Some? then Positive(f.preventSharingOpinions.value) else old(chosenPreventSharingOpinions)
      ensures chosenIntroductionText == if f.introductionText.Some? then f.introductionText else old(chosenIntroductionText)
      ensures chosenIntroductionTitle == if f.introductionTitle.Some? then f.introductionTitle else old(chosenIntroductionTitle)
      ensures chosenSocialShareDescription == Overwrite(old(chosenSocialShareDescription), f.socialShareDescription)
      ensures chosenSocialShareImageUrl == Overwrite(old(chosenSocialShareImageUrl), f.socialShareImageUrl)
      ensures (chosenSubdomain, status) == DomainRule(old(chosenSubdomain), f.subdomain, subdomainCheck)
    {
      chosenApiPassCode := Overwrite(chosenApiPassCode, f.apiPassCode);
      chosenPreventSharingOpinions :=
        if f.preventSharingOpinions.Some? then Positive(f.preventSharingOpinions.value) else chosenPreventSharingOpinions;
      chosenIntroductionText := if f.introductionText.Some? then f.introductionText else chosenIntroductionText;
      chosenIntroductionTitle := if f.introductionTitle.Some? then f.introductionTitle else chosenIntroductionTitle;
      chosenSocialShareDescription := Overwrite(chosenSocialShareDescription, f.socialShareDescription);
      chosenSocialShareImageUrl := Overwrite(chosenSocialShareImageUrl, f.socialShareImageUrl);
      status := ApplySubdomain(f.subdomain, subdomainCheck);
    }

    method ApplyDomain(posted: Option<string>, check: string -> Availability) returns (status: string)
      modifies this`chosenDomain
      ensures (chosenDomain, status) == DomainRule(old(chosenDomain), posted, check)
    {
      status := "";
      if posted.Some? {
        if Positive(posted.value) {
          var answer := check(posted.value);
          if answer.available {
            chosenDomain := Some(Strip(posted.value));
          } else {
            status := answer.status;
          }
        } else {
          chosenDomain := None;
        }
      }
    }

    method ApplySubdomain(posted: Option<string>, check: string -> Availability) returns (status: string)
      modifies this`chosenSubdomain
      ensures (chosenSubdomain, status) == DomainRule(old(chosenSubdomain), posted, check)
    {
      status := "";
      if posted.Some? {
        if Positive(posted.value) {
          var answer := check(posted.value);
          if answer.available {
            chosenSubdomain := Some(Strip(posted.value));
          } else {
            status := answer.status;
          }
        } else {
          chosenSubdomain := None;
        }
      }
    }

    /** The feature-package loop: every package of the master list whose name
        is the chosen one overwrites the package and its bitmap. */
    method ChooseFeaturePackage(chosen: string, packages: seq<FeaturePackage>)
      modifies this`chosenFeaturePackage, this`featuresProvidedBitmap
      ensures LastMatch(packages, chosen).None? ==>
                chosenFeaturePackage == old(chosenFeaturePackage) &&
                featuresProvidedBitmap == old(featuresProvidedBitmap)
      ensures LastMatch(packages, chosen).Some? ==>
                chosenFeaturePackage == Some(chosen) &&
                featuresProvidedBitmap == LastMatch(packages, chosen).value.featuresProvidedBitmap
    {
      var i := 0;
      while i < |packages|
        invariant 0 <= i <= |packages|
        invariant LastMatch(packages[..i], chosen).None? ==>
                    chosenFeaturePackage == old(chosenFeaturePackage) &&
                    featuresProvidedBitmap == old(featuresProvidedBitmap)
        invariant LastMatch(packages[..i], chosen).Some? ==>
                    chosenFeaturePackage == Some(chosen) &&
                    featuresProvidedBitmap == LastMatch(packages[..i], chosen).value.featuresProvidedBitmap
      {
        assert packages[..i + 1][..i] == packages[..i];
        if packages[i].name == chosen {
          chosenFeaturePackage := Some(chosen);
          featuresProvidedBitmap := packages[i].featuresProvidedBitmap;
        }
        i := i + 1;
      }
      assert packages[..|packages|] == packages;
    }
  }

  /** The stored organization a form names, as a set: empty when there is
      none. */
  function Stage(org: OrganizationOnStage?): set<OrganizationOnStage> {
    if org == null then {} else {org}
  }

  /** `organization_edit_process_view` from the organization lookup to the
      issue links: `org` is the stored organization the form names, if any;
      `priorIssues` the issues it is linked to (none for a new one). The
      links are reconciled only once the organization is saved. Only the
      profile columns of the stored organization may change: the modifies
      clause leaves its account settings out. */
  method EditProcess(org: OrganizationOnStage?, f: EditForm,
                     extract: Option<string> -> Option<string>, findAny: DuplicateSearch,
                     priorIssues: seq<string>)
    returns (outcome: EditOutcome, saved: OrganizationOnStage?,
             linked: seq<string>, unlinked: seq<string>)
    modifies Stage(org)`name, Stage(org)`orgType, Stage(org)`issueAnalysisAdminNotes
    modifies Stage(org)`issueAnalysisDone, Stage(org)`twitterHandle, Stage(org)`email
    modifies Stage(org)`facebook, Stage(org)`website, Stage(org)`wikipediaPageTitle
    modifies Stage(org)`wikipediaPhotoUrl, Stage(org)`endorsementsApiUrl, Stage(org)`stateServedCode
    ensures org != null ==> outcome == Updated && saved == org &&
                            org.CurrentProfile() == EditedProfile(old(org.CurrentProfile()), f, extract)
    ensures org == null ==> outcome == CreateDecision(f, extract, findAny)
    ensures org == null && outcome == Created ==>
              saved != null && fresh(saved) && saved.CurrentProfile() == NewProfile(f, extract) &&
              saved.CurrentAccount() == DefaultAccount
    ensures outcome in {Updated, Created} ==>
              multiset(linked) == multiset(f.selectedIssues) - multiset(priorIssues) &&
              multiset(unlinked) == multiset(priorIssues) - multiset(f.selectedIssues)
    ensures outcome !in {Updated, Created} ==> saved == null && linked == [] && unlinked == []
  {
    linked, unlinked := [], [];
    if org != null {
      org.ApplyEditForm(f, extract);
      outcome, saved := Updated, org;
    } else {
      outcome := CreateDecision(f, extract, findAny);
      if outcome != Created {
        saved := null;
        return;
      }
      saved := new OrganizationOnStage.Create(f, extract);
    }
    linked, unlinked := IssueLinks.ReconcileIssueLinks(priorIssues, f.selectedIssues);
  }

  /** `organization_edit_account_process_view`: nothing changes when the
      form names no stored organization, and the profile columns of a stored
      one are left as they are. */
  method EditAccountProcess(org: OrganizationOnStage?, f: AccountForm,
                            domainCheck: string -> Availability,
                            subdomainCheck: string -> Availability,
                            packages: seq<FeaturePackage>) returns (status: string)
    modifies Stage(org)`chosenDomain, Stage(org)`chosenFaviconUrl, Stage(org)`chosenGoogleAnalyticsAccountNumber
    modifies Stage(org)`chosenHtmlVerificationString, Stage(org)`chosenHideWeVoteLogo, Stage(org)`chosenLogoUrl
    modifies Stage(org)`chosenApiPassCode, Stage(org)`chosenPreventSharingOpinions
    modifies Stage(org)`chosenIntroductionText, Stage(org)`chosenIntroductionTitle
    modifies Stage(org)`chosenSocialShareDescription, Stage(org)`chosenSocialShareImageUrl
    modifies Stage(org)`chosenSubdomain, Stage(org)`chosenFeaturePackage, Stage(org)`featuresProvidedBitmap
    ensures org == null ==> status == AccountNotFoundStatus
    ensures org != null ==>
              (org.CurrentAccount(), status) == EditedAccount(old(org.CurrentAccount()), f, domainCheck, subdomainCheck, packages)
    ensures org != null ==> unchanged(org`name, org`orgType, org`issueAnalysisAdminNotes, org`issueAnalysisDone,
                                      org`twitterHandle, org`email, org`facebook, org`website,
                                      org`wikipediaPageTitle, org`wikipediaPhotoUrl, org`endorsementsApiUrl,
                                      org`stateServedCode)
  {
    if org == null {
      status := AccountNotFoundStatus;
    } else {
      status := org.ApplyAccountForm(f, domainCheck, subdomainCheck, packages);
    }
  }

  // ---------------------------------------------------------------------
  // Properties of the profile form

  /** A text field after the update: the posted value stripped when the form
      sent one, the stored value otherwise. */
  predicate StrippedIfSent(prior: Option<string>, posted: Option<string>, stored: Option<string>) {
    (posted.Some? ==> stored == Some(Strip(posted.value))) && (posted.None? ==> stored == prior)
  }

  /** Fields the form sent are stored stripped; fields it did not send keep
      their value; the issue-analysis flag is stored exactly as posted. */
  lemma SentFieldsStrippedOthersKept(p: Profile, f: EditForm, extract: Option<string> -> Option<string>)
    ensures var r := EditedProfile(p, f, extract);
      r.name == Strip(f.name) && r.orgType == Strip(f.orgType) &&
      StrippedIfSent(p.issueAnalysisAdminNotes, f.issueAnalysisAdminNotes, r.issueAnalysisAdminNotes) &&
      (f.issueAnalysisDone.Some? ==> r.issueAnalysisDone == f.issueAnalysisDone) &&
      (f.issueAnalysisDone.None? ==> r.issueAnalysisDone == p.issueAnalysisDone) &&
      StrippedIfSent(p.twitterHandle, extract(f.twitterHandle), r.twitterHandle) &&
      StrippedIfSent(p.email, f.email, r.email) &&
      StrippedIfSent(p.facebook, f.facebook, r.facebook) &&
      StrippedIfSent(p.website, f.website, r.website) &&
      StrippedIfSent(p.wikipediaPageTitle, f.wikipediaPageTitle, r.wikipediaPageTitle) &&
      StrippedIfSent(p.wikipediaPhotoUrl, f.wikipediaPhotoUrl, r.wikipediaPhotoUrl) &&
      StrippedIfSent(p.endorsementsApiUrl, f.endorsementsApiUrl, r.endorsementsApiUrl) &&
      StrippedIfSent(p.stateServedCode, f.stateServedCode, r.stateServedCode)
  {
  }

  /** A form that sends nothing but the defaulted name and type changes
      nothing else. */
  lemma EmptyFormKeepsOptionalFields(p: Profile, f: EditForm, extract: Option<string> -> Option<string>)
    requires f.issueAnalysisAdminNotes.None? && f.issueAnalysisDone.None? && f.email.None?
    requires f.facebook.None? && f.website.None? && f.wikipediaPageTitle.None?
    requires f.wikipediaPhotoUrl.None? && f.endorsementsApiUrl.None? && f.stateServedCode.None?
    requires extract(f.twitterHandle).None?
    ensures EditedProfile(p, f, extract) == p.(name := Strip(f.name), orgType := Strip(f.orgType))
  {
  }

  /** The name and the type are never "not sent": a post without them blanks
      the name and resets the type to GROUP. */
  lemma MissingNameBlanksIt(p: Profile, post: map<string, string>, issues: seq<string>,
                            extract: Option<string> -> Option<string>)
    requires "organization_name" !in post && "organization_type" !in post
    ensures EditedProfile(p, ReadEditForm(post, issues), extract).name == ""
    ensures EditedProfile(p, ReadEditForm(post, issues), extract).orgType == OrganizationModel.GROUP
  {
    StripNoop(OrganizationModel.GROUP);
    StripEmptyIff("");
  }

  /** Saving the same form twice is the same as saving it once. */
  lemma {:induction false} EditIdempotent(p: Profile, f: EditForm, extract: Option<string> -> Option<string>)
    ensures EditedProfile(EditedProfile(p, f, extract), f, extract) == EditedProfile(p, f, extract)
  {
    var once := EditedProfile(p, f, extract);
    var twice := EditedProfile(once, f, extract);
    assert twice.name == once.name;
    assert twice.email == once.email;
  }

  /** A stored text carries no surrounding whitespace. */
  predicate StrippedOrAbsent(v: Option<string>) {
    v.Some? ==> Strip(v.value) == v.value
  }

  /** Every string field the update writes (all but the issue-analysis flag)
      carries no surrounding whitespace. */
  lemma {:induction false} EditedFieldsAreStripped(p: Profile, f: EditForm, extract: Option<string> -> Option<string>)
    ensures var r := EditedProfile(p, f, extract);
      Strip(r.name) == r.name && Strip(r.orgType) == r.orgType &&
      (f.issueAnalysisAdminNotes.Some? ==> StrippedOrAbsent(r.issueAnalysisAdminNotes)) &&
      (extract(f.twitterHandle).Some? ==> StrippedOrAbsent(r.twitterHandle)) &&
      (f.email.Some? ==> StrippedOrAbsent(r.email)) &&
      (f.facebook.Some? ==> StrippedOrAbsent(r.facebook)) &&
      (f.website.Some? ==> StrippedOrAbsent(r.website)) &&
      (f.wikipediaPageTitle.Some? ==> StrippedOrAbsent(r.wikipediaPageTitle)) &&
      (f.wikipediaPhotoUrl.Some? ==> StrippedOrAbsent(r.wikipediaPhotoUrl)) &&
      (f.endorsementsApiUrl.Some? ==> StrippedOrAbsent(r.endorsementsApiUrl)) &&
      (f.stateServedCode.Some? ==> StrippedOrAbsent(r.stateServedCode))
  {
    StripIdempotent(f.name);
    StripIdempotent(f.orgType);
    OverwriteStripped(p.issueAnalysisAdminNotes, f.issueAnalysisAdminNotes);
    OverwriteStripped(p.twitterHandle, extract(f.twitterHandle));
    OverwriteStripped(p.email, f.email);
    OverwriteStripped(p.facebook, f.facebook);
    OverwriteStripped(p.website, f.website);
    OverwriteStripped(p.wikipediaPageTitle, f.wikipediaPageTitle);
    OverwriteStripped(p.wikipediaPhotoUrl, f.wikipediaPhotoUrl);
    OverwriteStripped(p.endorsementsApiUrl, f.endorsementsApiUrl);
    OverwriteStripped(p.stateServedCode, f.stateServedCode);
  }

  /** A sent value is stored stripped. */
  lemma OverwriteStripped(prior: Option<string>, posted: Option<string>)
    ensures posted.Some? ==> StrippedOrAbsent(Overwrite(prior, posted))
  {
    if posted.Some? {
      StripIdempotent(posted.value);
    }
  }

  /** A new organization is created only with a name and when the duplicate
      search, run with a blank e-mail, found nothing. */
  lemma CreateNeedsNameAndNoDuplicate(f: EditForm, extract: Option<string> -> Option<string>,
                                      findAny: DuplicateSearch)
    ensures CreateDecision(f, extract, findAny) == Created <==>
              Positive(f.name) && !findAny(f.name, extract(f.twitterHandle), f.website, "")
    ensures CreateDecision(f, extract, findAny) == PossibleMatchesShown <==>
              findAny(f.name, extract(f.twitterHandle), f.website, "")
  {
  }

  /** On create the posted e-mail is discarded: neither the decision nor the
      stored profile depends on it, and the stored e-mail is `''`. */
  lemma CreateIgnoresPostedEmail(f: EditForm, e: Option<string>, extract: Option<string> -> Option<string>,
                                 findAny: DuplicateSearch)
    ensures CreateDecision(f.(email := e), extract, findAny) == CreateDecision(f, extract, findAny)
    ensures NewProfile(f.(email := e), extract) == NewProfile(f, extract)
    ensures NewProfile(f, extract).email == Some("")
  {
  }

  /** A changed handle, or a first one where the stored one is missing or
      blank, triggers the Twitter refresh; posting the stored handle again,
      or none, does not. */
  lemma TwitterRefreshCases(prior: Option<string>, incoming: Option<string>)
    ensures incoming.None? || incoming == Some("") ==> !NewTwitterHandle(prior, incoming)
    ensures incoming.Some? && Positive(incoming.value) && prior == incoming ==> !NewTwitterHandle(prior, incoming)
    ensures incoming.Some? && Positive(incoming.value) && prior == None ==> NewTwitterHandle(prior, incoming)
    ensures incoming.Some? && Positive(incoming.value) && prior.Some? && !Positive(prior.value) ==> NewTwitterHandle(prior, incoming)
    ensures incoming.Some? && Positive(incoming.value) && prior.Some? && Positive(prior.value) && prior.value != incoming.value ==>
      NewTwitterHandle(prior, incoming)
  {
  }

  // ---------------------------------------------------------------------
  // Properties of the account form

  /** A domain changes only as the rules allow: cleared by a blank value, or
      set to the stripped value that passed the availability check. A refused
      value leaves the stored one and reports the check's status. */
  lemma DomainChangesOnlyWhenAvailable(a: Account, f: AccountForm, domainCheck: string -> Availability,
                                       subdomainCheck: string -> Availability,
                                       packages: seq<FeaturePackage>)
    ensures var (r, _) := EditedAccount(a, f, domainCheck, subdomainCheck, packages);
      r.domain != a.domain ==>
        f.domain.Some? &&
        ((!Positive(f.domain.value) && r.domain == None) ||
         (domainCheck(f.domain.value).available && r.domain == Some(Strip(f.domain.value))))
    ensures var (r, _) := EditedAccount(a, f, domainCheck, subdomainCheck, packages);
      r.subdomain != a.subdomain ==>
        f.subdomain.Some? &&
        ((!Positive(f.subdomain.value) && r.subdomain == None) ||
         (subdomainCheck(f.subdomain.value).available && r.subdomain == Some(Strip(f.subdomain.value))))
    ensures f.domain.Some? && Positive(f.domain.value) && !domainCheck(f.domain.value).available ==>
              EditedAccount(a, f, domainCheck, subdomainCheck, packages).0.domain == a.domain &&
              StartsWith(EditedAccount(a, f, domainCheck, subdomainCheck, packages).1,
                         domainCheck(f.domain.value).status)
  {
  }

  /** A form that sends no account field leaves the settings as they were,
      and with no refused domain or subdomain the status stays empty. */
  lemma EmptyAccountFormKeepsAccount(a: Account, f: AccountForm, domainCheck: string -> Availability,
                                     subdomainCheck: string -> Availability,
                                     packages: seq<FeaturePackage>)
    ensures f == AccountForm(None, None, None, None, None, None, None, None, None, None, None, None, None, None) ==>
              EditedAccount(a, f, domainCheck, subdomainCheck, packages) == (a, "")
    ensures (f.domain.None? || !Positive(f.domain.value) || domainCheck(f.domain.value).available)
            && (f.subdomain.None? || !Positive(f.subdomain.value) || subdomainCheck(f.subdomain.value).available)
            ==> EditedAccount(a, f, domainCheck, subdomainCheck, packages).1 == ""
  {
  }

  /** The feature package changes only to a package of the master list, and
      then the bitmap is that of the last package of that name. */
  lemma {:induction false} PackageFromMasterList(a: Account, f: AccountForm, domainCheck: string -> Availability,
                                                 subdomainCheck: string -> Availability,
                                                 packages: seq<FeaturePackage>)
    ensures var (r, _) := EditedAccount(a, f, domainCheck, subdomainCheck, packages);
      r.featurePackage != a.featurePackage || r.featuresProvidedBitmap != a.featuresProvidedBitmap ==>
        f.featurePackage.Some? && r.featurePackage == f.featurePackage &&
        exists k :: 0 <= k < |packages| && packages[k].name == f.featurePackage.value &&
          r.featuresProvidedBitmap == packages[k].featuresProvidedBitmap &&
          forall j :: k < j < |packages| ==> packages[j].name != f.featurePackage.value
    ensures f.featurePackage.Some? && (forall i :: 0 <= i < |packages| ==> packages[i].name != f.featurePackage.value) ==>
      EditedAccount(a, f, domainCheck, subdomainCheck, packages).0.featurePackage == a.featurePackage
  {
    if f.featurePackage.Some? {
      var m := LastMatch(packages, f.featurePackage.value);
      if m.Some? {
        var k :| 0 <= k < |packages| && packages[k] == m.value && m.value.name == f.featurePackage.value &&
                 forall j :: k < j < |packages| ==> packages[j].name != f.featurePackage.value;
      }
    }
  }
}
