/** Reserved domains: full domains and subdomains kept aside so that no
    organization can choose them. The admin tool edits one reserved entry at a
    time, refusing a name another entry or an organization already uses, and
    lists the entries next to the domains organizations have chosen. */
module ReservedDomains {
  import opened Wrappers
  import opened Text
  import opened Query

  /** A stored reserved entry. */
  datatype ReservedRow = ReservedRow(id: int, fullDomain: Option<string>, subdomain: Option<string>)

  /** The two domain columns of a stored organization. */
  datatype OrganizationDomainRow = OrganizationDomainRow(
    weVoteId: string,
    chosenDomain: Option<string>,
    chosenSubdomain: Option<string>)

  predicate OptIEquals(field: Option<string>, value: string) {
    field.Some? && IEquals(field.value, value)
  }

  predicate OptIContains(field: Option<string>, word: string) {
    field.Some? && IContains(field.value, word)
  }

  /** The value an update stores for a posted string: the string without
      surrounding whitespace, or no value when nothing was posted. */
  function StoredValue(posted: string): (r: Option<string>)
    ensures r.None? <==> !Positive(posted)
    ensures r.Some? ==> r.value == Strip(posted)
    ensures r.Some? ==> |r.value| <= |posted|
    ensures r.Some? ==> r.value == [] || (!IsSpace(r.value[0]) && !IsSpace(r.value[|r.value| - 1]))
  {
    if Positive(posted) then Some(Strip(posted)) else None
  }

  /** A reserved entry as the admin tool holds it while editing. */
  class ReservedDomain {
    var id: int
    var fullDomain: Option<string>
    var subdomain: Option<string>

    function Row(): ReservedRow
      reads this
    {
      ReservedRow(id, fullDomain, subdomain)
    }

    /** `objects.create(...)`: a new entry with the given columns. */
    constructor Create(id: int, fullDomain: Option<string>, subdomain: Option<string>)
      ensures Row() == ReservedRow(id, fullDomain, subdomain)
    {
      this.id := id;
      this.fullDomain := fullDomain;
      this.subdomain := subdomain;
    }

    /** Overwrites both columns from the form: each posted string is stored
        stripped, and a column left blank is cleared. */
    method Update(full: string, sub: string)
      modifies this`fullDomain, this`subdomain
      ensures Row() == UpdatedRow(old(Row()), full, sub)
    {
      fullDomain := StoredValue(full);
      subdomain := StoredValue(sub);
    }
  }

  /** An entry after an update from the form. */
  function UpdatedRow(r: ReservedRow, full: string, sub: string): ReservedRow {
    r.(fullDomain := StoredValue(full), subdomain := StoredValue(sub))
  }

  /** The entry a create stores: the full domain when one was posted (and then
      no subdomain), otherwise the subdomain; neither is stripped. */
  function CreatedRow(id: int, full: string, sub: string): ReservedRow {
    if Positive(full) then ReservedRow(id, Some(full), None)
    else ReservedRow(id, None, Some(sub))
  }

  // ---------------------------------------------------------------------
  // The "already taken" check of the edit form

  /** An organization uses the posted name: its chosen domain matches the
      posted full domain, or, when no full domain was posted, its chosen
      subdomain matches the posted subdomain (case-insensitively). */
  predicate OrganizationClash(o: OrganizationDomainRow, full: string, sub: string) {
    if Positive(full) then OptIEquals(o.chosenDomain, full) else OptIEquals(o.chosenSubdomain, sub)
  }

  /** Another reserved entry (any entry but the one being edited, when an id
      was posted) holds the posted name, compared as for organizations. */
  predicate ReservedClash(r: ReservedRow, full: string, sub: string, id: int) {
    (id > 0 ==> r.id != id)
    && if Positive(full) then OptIEquals(r.fullDomain, full) else OptIEquals(r.subdomain, sub)
  }

  /** The filters the views chain onto the reserved-domain table. */
  datatype ReservedFilter =
    | ExcludeId(id: int)
    | FullDomainIExact(value: string)
    | SubdomainIExact(value: string)
    | ExcludeBlankFullDomain
    | ExcludeBlankSubdomain
    | EitherIContains(word: string)

  predicate ReservedHolds(f: ReservedFilter, r: ReservedRow) {
    match f
    case ExcludeId(id) => r.id != id
    case FullDomainIExact(v) => OptIEquals(r.fullDomain, v)
    case SubdomainIExact(v) => OptIEquals(r.subdomain, v)
    case ExcludeBlankFullDomain => r.fullDomain != None && r.fullDomain != Some("")
    case ExcludeBlankSubdomain => r.subdomain != None && r.subdomain != Some("")
    case EitherIContains(w) => OptIContains(r.fullDomain, w) || OptIContains(r.subdomain, w)
  }

  /** The filters the views chain onto the organization table. */
  datatype OrganizationFilter =
    | ChosenDomainIExact(value: string)
    | ChosenSubdomainIExact(value: string)
    | ChosenDomainSet
    | ChosenSubdomainSet
    | EitherChosenSet
    | EitherChosenIContains(word: string)

  predicate OrganizationHolds(f: OrganizationFilter, o: OrganizationDomainRow) {
    match f
    case ChosenDomainIExact(v) => OptIEquals(o.chosenDomain, v)
    case ChosenSubdomainIExact(v) => OptIEquals(o.chosenSubdomain, v)
    case ChosenDomainSet => o.chosenDomain.Some?
    case ChosenSubdomainSet => o.chosenSubdomain.Some?
    case EitherChosenSet => o.chosenDomain.Some? || o.chosenSubdomain.Some?
    case EitherChosenIContains(w) => OptIContains(o.chosenDomain, w) || OptIContains(o.chosenSubdomain, w)
  }

  function OrganizationClashFilters(full: string, sub: string): seq<OrganizationFilter> {
    [if Positive(full) then ChosenDomainIExact(full) else ChosenSubdomainIExact(sub)]
  }

  function ReservedClashFilters(full: string, sub: string, id: int): seq<ReservedFilter> {
    (if id > 0 then [ExcludeId(id)] else [])
    + [if Positive(full) then FullDomainIExact(full) else SubdomainIExact(sub)]
  }

  /** The organizations the edit view finds holding the posted name. */
  function OrganizationClashes(organizations: seq<OrganizationDomainRow>, full: string, sub: string)
    : (r: seq<OrganizationDomainRow>)
    ensures forall o :: o in r <==> o in organizations && OrganizationClash(o, full, sub)
  {
    var r := Select(organizations, OrganizationClashFilters(full, sub), OrganizationHolds);
    assert forall o :: AllHold(OrganizationClashFilters(full, sub), OrganizationHolds, o)
                       <==> OrganizationClash(o, full, sub) by {
      forall o ensures AllHold(OrganizationClashFilters(full, sub), OrganizationHolds, o)
                       <==> OrganizationClash(o, full, sub) {
        assert OrganizationClashFilters(full, sub)[0] == if Positive(full) then ChosenDomainIExact(full) else ChosenSubdomainIExact(sub);
      }
    }
    r
  }

  lemma ReservedClashFiltersMeaning(full: string, sub: string, id: int, x: ReservedRow)
    ensures AllHold(ReservedClashFilters(full, sub, id), ReservedHolds, x) <==> ReservedClash(x, full, sub, id)
  {
    var fs := ReservedClashFilters(full, sub, id);
    var name := if Positive(full) then FullDomainIExact(full) else SubdomainIExact(sub);
    assert ReservedHolds(name, x) <==> if Positive(full) then OptIEquals(x.fullDomain, full) else OptIEquals(x.subdomain, sub);
    if id > 0 {
      assert fs == [ExcludeId(id), name];
      assert AllHold(fs, ReservedHolds, x) <==> ReservedHolds(fs[0], x) && ReservedHolds(fs[1], x);
    } else {
      assert fs == [name];
      assert AllHold(fs, ReservedHolds, x) <==> ReservedHolds(fs[0], x);
    }
  }

  /** The other reserved entries the edit view finds holding the posted name. */
  function ReservedClashes(reserved: seq<ReservedRow>, full: string, sub: string, id: int): (r: seq<ReservedRow>)
    ensures forall x :: x in r <==> x in reserved && ReservedClash(x, full, sub, id)
  {
    var r := Select(reserved, ReservedClashFilters(full, sub, id), ReservedHolds);
    assert forall x :: x in r <==> x in reserved && ReservedClash(x, full, sub, id) by {
      forall x ensures x in r <==> x in reserved && ReservedClash(x, full, sub, id) {
        ReservedClashFiltersMeaning(full, sub, id, x);
      }
    }
    r
  }

  // ---------------------------------------------------------------------
  // The edit view

  /** What the edit view does with a submitted form. */
  datatype EditOutcome =
    | AskForDomain
    | AlreadyTaken(organizations: seq<OrganizationDomainRow>, reserved: seq<ReservedRow>)
    | UpdatedEntry
    | CreatedFullDomain
    | CreatedSubdomain

  /** Some full domain or subdomain was posted. */
  predicate NamePosted(full: string, sub: string) {
    Positive(full) || Positive(sub)
  }

  /** The name is held by an organization or by another reserved entry. */
  predicate Taken(full: string, sub: string, id: int,
                  organizations: seq<OrganizationDomainRow>, reserved: seq<ReservedRow>) {
    (exists o :: o in organizations && OrganizationClash(o, full, sub))
    || (exists x :: x in reserved && ReservedClash(x, full, sub, id))
  }

  /** The decision of the edit view. `found` says whether an entry was
      looked up by the posted id (only an id above zero is looked up). */
  function EditDecision(full: string, sub: string, id: int, found: bool,
                        organizations: seq<OrganizationDomainRow>, reserved: seq<ReservedRow>)
    : (r: EditOutcome)
    ensures r.AskForDomain? <==> !NamePosted(full, sub)
    ensures r.AlreadyTaken? <==> NamePosted(full, sub) && Taken(full, sub, id, organizations, reserved)
    ensures r.AlreadyTaken? ==> r.organizations == OrganizationClashes(organizations, full, sub)
                                && r.reserved == ReservedClashes(reserved, full, sub, id)
    ensures r.UpdatedEntry? <==> NamePosted(full, sub) && !Taken(full, sub, id, organizations, reserved) && found
    ensures r.CreatedFullDomain? <==> Positive(full) && !Taken(full, sub, id, organizations, reserved) && !found
    ensures r.CreatedSubdomain? <==> !Positive(full) && Positive(sub) && !Taken(full, sub, id, organizations, reserved) && !found
  {
    if !NamePosted(full, sub) then AskForDomain
    else
      var orgs := OrganizationClashes(organizations, full, sub);
      var others := ReservedClashes(reserved, full, sub, id);
      assert orgs != [] <==> exists o :: o in organizations && OrganizationClash(o, full, sub) by {
        if orgs != [] { assert orgs[0] in orgs; }
      }
      assert others != [] <==> exists x :: x in reserved && ReservedClash(x, full, sub, id) by {
        if others != [] { assert others[0] in others; }
      }
      if |others| > 0 || |orgs| > 0 then AlreadyTaken(orgs, others)
      else if found then UpdatedEntry
      else if Positive(full) then CreatedFullDomain
      else CreatedSubdomain
  }

  /** The edit view. `lookup` is the stored entry whose id is `id`, or null
      when there is none; it is consulted only for an id above zero. A new
      entry gets the id `newId` from the database. */
  method ReservedDomainEditProcess(full: string, sub: string, id: int, lookup: ReservedDomain?,
                                   organizations: seq<OrganizationDomainRow>, reserved: seq<ReservedRow>,
                                   newId: int)
    returns (outcome: EditOutcome, entry: ReservedDomain?)
    modifies lookup
    ensures outcome == EditDecision(full, sub, id, id > 0 && lookup != null, organizations, reserved)
    ensures outcome.UpdatedEntry? ==> entry == lookup && entry != null
                                      && entry.Row() == UpdatedRow(old(entry.Row()), full, sub)
    ensures outcome.CreatedFullDomain? || outcome.CreatedSubdomain? ==>
              entry != null && fresh(entry) && entry.Row() == CreatedRow(newId, full, sub)
    ensures outcome.AskForDomain? || outcome.AlreadyTaken? ==> entry == null
    ensures !outcome.UpdatedEntry? && lookup != null ==> lookup.Row() == old(lookup.Row())
  {
    entry := null;
    if !Positive(full) && !Positive(sub) {
      outcome := AskForDomain;
      return;
    }
    var found: ReservedDomain? := null;
    if id > 0 {
      found := lookup;
    }
    var orgs := OrganizationClashes(organizations, full, sub);
    var others := ReservedClashes(reserved, full, sub, id);
    if |others| > 0 || |orgs| > 0 {
      outcome := AlreadyTaken(orgs, others);
      return;
    }
    if found != null {
      found.Update(full, sub);
      entry := found;
      outcome := UpdatedEntry;
    } else if Positive(full) {
      entry := new ReservedDomain.Create(newId, Some(full), None);
      outcome := CreatedFullDomain;
    } else if Positive(sub) {
      entry := new ReservedDomain.Create(newId, None, Some(sub));
      outcome := CreatedSubdomain;
    } else {
      // the view's "not saved" branch: excluded by the first check
      assert false;
    }
  }

  /** A name already held elsewhere is never saved: the form is shown again
      with the entries holding it. */
  lemma TakenNameNeverSaved(full: string, sub: string, id: int, found: bool,
                            organizations: seq<OrganizationDomainRow>, reserved: seq<ReservedRow>,
                            o: OrganizationDomainRow)
    requires NamePosted(full, sub) && o in organizations && OrganizationClash(o, full, sub)
    ensures EditDecision(full, sub, id, found, organizations, reserved).AlreadyTaken?
    ensures o in EditDecision(full, sub, id, found, organizations, reserved).organizations
  {
  }

  /** The entry being edited never counts as holding its own name. */
  lemma EditedEntryDoesNotClashWithItself(full: string, sub: string, id: int, r: ReservedRow)
    requires id > 0 && r.id == id
    ensures !ReservedClash(r, full, sub, id)
  {
  }

  /** When a full domain is posted, only the full domain is checked: an
      organization clashes exactly when its chosen domain matches, whatever
      its subdomain, and the posted subdomain plays no part in the decision. */
  lemma SubdomainUncheckedWithFullDomain(full: string, sub: string, sub': string, id: int, found: bool,
                                         organizations: seq<OrganizationDomainRow>, reserved: seq<ReservedRow>)
    requires Positive(full)
    ensures forall o :: OrganizationClash(o, full, sub) <==> OptIEquals(o.chosenDomain, full)
    ensures Taken(full, sub, id, organizations, reserved) <==> Taken(full, sub', id, organizations, reserved)
    ensures EditDecision(full, sub, id, found, organizations, reserved)
            == EditDecision(full, sub', id, found, organizations, reserved)
  {
    assert OrganizationClashFilters(full, sub) == OrganizationClashFilters(full, sub');
    assert ReservedClashFilters(full, sub, id) == ReservedClashFilters(full, sub', id);
  }

  /** An update clears a blank column and stores the other stripped; a
      create keeps one column, the full domain when both are posted, as
      posted. */
  lemma SavedColumns(r: ReservedRow, full: string, sub: string, newId: int)
    ensures UpdatedRow(r, full, sub).id == r.id
    ensures UpdatedRow(r, full, sub).fullDomain == (if Positive(full) then Some(Strip(full)) else None)
    ensures UpdatedRow(r, full, sub).subdomain == (if Positive(sub) then Some(Strip(sub)) else None)
    ensures Positive(full) ==> CreatedRow(newId, full, sub).subdomain == None
                               && CreatedRow(newId, full, sub).fullDomain == Some(full)
    ensures CreatedRow(newId, full, sub).fullDomain.None? || CreatedRow(newId, full, sub).subdomain.None?
  {
  }

  /** Update and create store surrounding whitespace differently: a create
      keeps the posted full domain as it is, an update stores it stripped,
      and the two agree exactly when it has no surrounding whitespace. */
  lemma CreateKeepsWhitespaceUpdateStrips(r: ReservedRow, newId: int, full: string, sub: string)
    requires Positive(full)
    ensures CreatedRow(newId, full, sub).fullDomain == Some(full)
    ensures UpdatedRow(r, full, sub).fullDomain == Some(Strip(full))
    ensures UpdatedRow(r, full, sub).fullDomain == CreatedRow(newId, full, sub).fullDomain
            <==> !IsSpace(full[0]) && !IsSpace(full[|full| - 1])
  {
    if !IsSpace(full[0]) && !IsSpace(full[|full| - 1]) {
      StripNoop(full);
    }
  }

  /** Updating again with the values just stored changes nothing. */
  lemma UpdateIdempotent(r: ReservedRow, full: string, sub: string)
    requires Positive(Strip(full)) && Positive(Strip(sub))
    ensures var u := UpdatedRow(r, full, sub);
            UpdatedRow(u, u.fullDomain.value, u.subdomain.value) == u
  {
    StripIdempotent(full);
    StripIdempotent(sub);
  }

  // ---------------------------------------------------------------------
  // The list view

  /** The GET parameters of the reserved-domain list page. */
  datatype DomainListRequest = DomainListRequest(
    search: string,
    showFullDomains: string,
    showSubdomains: string,
    showMore: string,
    showAll: string)

  predicate FullDomainsOnly(q: DomainListRequest) {
    Positive(q.showFullDomains) && !Positive(q.showSubdomains)
  }

  predicate SubdomainsOnly(q: DomainListRequest) {
    Positive(q.showSubdomains) && !Positive(q.showFullDomains)
  }

  /** Every search word is found in one of the entry's two columns. */
  predicate ReservedSearched(search: string, r: ReservedRow) {
    Positive(search) ==>
      forall w :: w in Words(search) ==> OptIContains(r.fullDomain, w) || OptIContains(r.subdomain, w)
  }

  /** The reserved entries the list counts: with only one kind asked for,
      entries whose column of that kind is set and non-empty; any entry
      otherwise; and every search word found. */
  predicate ReservedListed(q: DomainListRequest, r: ReservedRow) {
    ReservedKindShown(q, r) && ReservedSearched(q.search, r)
  }

  predicate ReservedKindShown(q: DomainListRequest, r: ReservedRow) {
    (FullDomainsOnly(q) ==> r.fullDomain != None && r.fullDomain != Some(""))
    && (SubdomainsOnly(q) ==> r.subdomain != None && r.subdomain != Some(""))
  }

  predicate OrganizationSearched(search: string, o: OrganizationDomainRow) {
    Positive(search) ==>
      forall w :: w in Words(search) ==> OptIContains(o.chosenDomain, w) || OptIContains(o.chosenSubdomain, w)
  }

  /** The organizations the list counts: those with the asked-for column
      set (either column when neither or both kinds are asked for), every
      search word found. An empty chosen string still counts as set. */
  predicate OrganizationListed(q: DomainListRequest, o: OrganizationDomainRow) {
    OrganizationKindShown(q, o) && OrganizationSearched(q.search, o)
  }

  predicate OrganizationKindShown(q: DomainListRequest, o: OrganizationDomainRow) {
    if FullDomainsOnly(q) then o.chosenDomain.Some?
    else if SubdomainsOnly(q) then o.chosenSubdomain.Some?
    else o.chosenDomain.Some? || o.chosenSubdomain.Some?
  }

  function ReservedWordFilters(words: seq<string>): (fs: seq<ReservedFilter>)
    ensures |fs| == |words|
    ensures forall j :: 0 <= j < |words| ==> fs[j] == EitherIContains(words[j])
  {
    if words == [] then [] else ReservedWordFilters(words[..|words| - 1]) + [EitherIContains(words[|words| - 1])]
  }

  function OrganizationWordFilters(words: seq<string>): (fs: seq<OrganizationFilter>)
    ensures |fs| == |words|
    ensures forall j :: 0 <= j < |words| ==> fs[j] == EitherChosenIContains(words[j])
  {
    if words == [] then [] else OrganizationWordFilters(words[..|words| - 1]) + [EitherChosenIContains(words[|words| - 1])]
  }

  function ReservedKindFilters(q: DomainListRequest): seq<ReservedFilter> {
    if FullDomainsOnly(q) then [ExcludeBlankFullDomain]
    else if SubdomainsOnly(q) then [ExcludeBlankSubdomain]
    else []
  }

  function OrganizationKindFilters(q: DomainListRequest): seq<OrganizationFilter> {
    [if FullDomainsOnly(q) then ChosenDomainSet
     else if SubdomainsOnly(q) then ChosenSubdomainSet
     else EitherChosenSet]
  }

  function SearchWords(search: string): seq<string> {
    if Positive(search) then Words(search) else []
  }

  lemma ReservedSearchMeaning(search: string, r: ReservedRow)
    ensures AllHold(ReservedWordFilters(SearchWords(search)), ReservedHolds, r) <==> ReservedSearched(search, r)
  {
    var ws := SearchWords(search);
    var words := ReservedWordFilters(ws);
    if AllHold(words, ReservedHolds, r) {
      forall w | w in ws ensures OptIContains(r.fullDomain, w) || OptIContains(r.subdomain, w) {
        var j :| 0 <= j < |ws| && ws[j] == w;
        assert ReservedHolds(words[j], r);
      }
    }
    if ReservedSearched(search, r) {
      forall j | 0 <= j < |words| ensures ReservedHolds(words[j], r) {
        assert ws[j] in ws;
      }
    }
  }

  lemma ReservedFiltersMeaning(q: DomainListRequest, r: ReservedRow)
    ensures AllHold(ReservedKindFilters(q) + ReservedWordFilters(SearchWords(q.search)), ReservedHolds, r)
            <==> ReservedListed(q, r)
  {
    AllHoldAppend(ReservedKindFilters(q), ReservedWordFilters(SearchWords(q.search)), ReservedHolds, r);
    ReservedSearchMeaning(q.search, r);
    ReservedKindMeaning(q, r);
  }

  lemma ReservedKindMeaning(q: DomainListRequest, r: ReservedRow)
    ensures AllHold(ReservedKindFilters(q), ReservedHolds, r) <==> ReservedKindShown(q, r)
  {
    var kind := ReservedKindFilters(q);
    if kind != [] {
      assert AllHold(kind, ReservedHolds, r) <==> ReservedHolds(kind[0], r);
    }
  }

  lemma OrganizationSearchMeaning(search: string, o: OrganizationDomainRow)
    ensures AllHold(OrganizationWordFilters(SearchWords(search)), OrganizationHolds, o) <==> OrganizationSearched(search, o)
  {
    var ws := SearchWords(search);
    var words := OrganizationWordFilters(ws);
    if AllHold(words, OrganizationHolds, o) {
      forall w | w in ws ensures OptIContains(o.chosenDomain, w) || OptIContains(o.chosenSubdomain, w) {
        var j :| 0 <= j < |ws| && ws[j] == w;
        assert OrganizationHolds(words[j], o);
      }
    }
    if OrganizationSearched(search, o) {
      forall j | 0 <= j < |words| ensures OrganizationHolds(words[j], o) {
        assert ws[j] in ws;
      }
    }
  }

  lemma OrganizationKindMeaning(q: DomainListRequest, o: OrganizationDomainRow)
    ensures AllHold(OrganizationKindFilters(q), OrganizationHolds, o) <==> OrganizationKindShown(q, o)
  {
    var kind := OrganizationKindFilters(q);
    assert AllHold(kind, OrganizationHolds, o) <==> OrganizationHolds(kind[0], o);
  }

  lemma OrganizationFiltersMeaning(q: DomainListRequest, o: OrganizationDomainRow)
    ensures AllHold(OrganizationKindFilters(q) + OrganizationWordFilters(SearchWords(q.search)), OrganizationHolds, o)
            <==> OrganizationListed(q, o)
  {
    AllHoldAppend(OrganizationKindFilters(q), OrganizationWordFilters(SearchWords(q.search)), OrganizationHolds, o);
    OrganizationSearchMeaning(q.search, o);
    OrganizationKindMeaning(q, o);
  }

  /** The reserved-entry half of the list page. */
  method ReservedStages(q: DomainListRequest, reserved: seq<ReservedRow>) returns (query: seq<ReservedRow>)
    ensures query == Select(reserved, [q], ReservedListed)
  {
    var kind: seq<ReservedFilter> := [];
    SelectNothing(reserved, ReservedHolds);
    query := reserved;
    if FullDomainsOnly(q) {
      query := Narrow(reserved, [], query, ExcludeBlankFullDomain, ReservedHolds);
      kind := [ExcludeBlankFullDomain];
      assert [] + kind == kind;
    } else if SubdomainsOnly(q) {
      query := Narrow(reserved, [], query, ExcludeBlankSubdomain, ReservedHolds);
      kind := [ExcludeBlankSubdomain];
      assert [] + kind == kind;
    }
    assert kind == ReservedKindFilters(q);
    var fs := ReservedWordFilters(SearchWords(q.search));
    query := NarrowAll(reserved, kind, query, fs, ReservedHolds);
    forall r ensures AllHold(kind + fs, ReservedHolds, r) <==> AllHold([q], ReservedListed, r) {
      ReservedFiltersMeaning(q, r);
      assert [q][0] == q;
    }
    SelectSameRows(reserved, kind + fs, ReservedHolds, [q], ReservedListed);
  }

  /** The organization half of the list page. */
  method OrganizationStages(q: DomainListRequest, organizations: seq<OrganizationDomainRow>)
    returns (query: seq<OrganizationDomainRow>)
    ensures query == Select(organizations, [q], OrganizationListed)
  {
    SelectNothing(organizations, OrganizationHolds);
    var kind: OrganizationFilter;
    if FullDomainsOnly(q) {
      kind := ChosenDomainSet;
    } else if SubdomainsOnly(q) {
      kind := ChosenSubdomainSet;
    } else {
      kind := EitherChosenSet;
    }
    query := Narrow(organizations, [], organizations, kind, OrganizationHolds);
    assert [] + [kind] == OrganizationKindFilters(q);
    var fs := OrganizationWordFilters(SearchWords(q.search));
    query := NarrowAll(organizations, [kind], query, fs, OrganizationHolds);
    forall o ensures AllHold([kind] + fs, OrganizationHolds, o) <==> AllHold([q], OrganizationListed, o) {
      OrganizationFiltersMeaning(q, o);
      assert [q][0] == q;
    }
    SelectSameRows(organizations, [kind] + fs, OrganizationHolds, [q], OrganizationListed);
  }

  /** The list page: both tables narrowed by the kind asked for and the
      search words, counted, and cut for display. */
  method ReservedDomainListView(q: DomainListRequest, reserved: seq<ReservedRow>,
                                organizations: seq<OrganizationDomainRow>)
    returns (reservedShown: seq<ReservedRow>, reservedCount: nat,
             organizationsShown: seq<OrganizationDomainRow>, organizationCount: nat)
    ensures reservedCount == |Select(reserved, [q], ReservedListed)|
    ensures reservedShown == Displayed(Select(reserved, [q], ReservedListed), Positive(q.showMore), Positive(q.showAll))
    ensures organizationCount == |Select(organizations, [q], OrganizationListed)|
    ensures organizationsShown == Displayed(Select(organizations, [q], OrganizationListed),
                                            Positive(q.showMore), Positive(q.showAll))
  {
    var rquery := ReservedStages(q, reserved);
    reservedCount := |rquery|;
    reservedShown := Displayed(rquery, Positive(q.showMore), Positive(q.showAll));
    var oquery := OrganizationStages(q, organizations);
    organizationCount := |oquery|;
    organizationsShown := Displayed(oquery, Positive(q.showMore), Positive(q.showAll));
  }

  /** Asking for both kinds is the same as asking for neither. */
  lemma BothKindsLikeNeither(q: DomainListRequest, r: ReservedRow, o: OrganizationDomainRow)
    requires Positive(q.showFullDomains) && Positive(q.showSubdomains)
    ensures ReservedListed(q, r) <==> ReservedListed(q.(showFullDomains := "", showSubdomains := ""), r)
    ensures OrganizationListed(q, o) <==> OrganizationListed(q.(showFullDomains := "", showSubdomains := ""), o)
  {
  }

  /** Entries with an empty full domain are hidden from the full-domain list,
      while organizations with an empty chosen domain are shown in it when
      the search lets them through. */
  lemma EmptyColumnTreatedDifferently(q: DomainListRequest, r: ReservedRow, o: OrganizationDomainRow)
    requires FullDomainsOnly(q)
    ensures r.fullDomain == Some("") ==> !ReservedListed(q, r)
    ensures o.chosenDomain == Some("") ==> (OrganizationListed(q, o) <==> OrganizationSearched(q.search, o))
  {
  }

  /** With a search, a listed row holds every word in one of its columns. */
  lemma SearchRequiresEveryWord(q: DomainListRequest, r: ReservedRow, w: string)
    requires Positive(q.search) && ReservedListed(q, r) && w in Words(q.search)
    ensures OptIContains(r.fullDomain, w) || OptIContains(r.subdomain, w)
  {
  }
}
