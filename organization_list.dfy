/** The organization list of the admin tool: which stored organizations the
    list page counts and shows for a given set of GET parameters. */
module OrganizationList {
  import opened Wrappers
  import opened Text
  import opened Query
  import opened OrganizationModel

  /** The GET parameters of the list page that decide which rows appear.
      `issueOrganizations` is the list of organization we_vote_ids linked to
      the selected issues, present only when issues were selected and the
      issue list was found (the lookup itself is not part of this model). */
  datatype ListRequest = ListRequest(
    stateCode: string,
    typeFilter: string,
    search: string,
    issueOrganizations: Option<seq<string>>,
    showMore: string,
    showAll: string)

  predicate OptIEquals(field: Option<string>, value: string) {
    field.Some? && IEquals(field.value, value)
  }

  predicate OptIContains(field: Option<string>, word: string) {
    field.Some? && IContains(field.value, word)
  }

  /** One search word is found, case-insensitively, in at least one of the
      six searched columns. */
  predicate WordFound(o: OrganizationRow, word: string) {
    IContains(o.name, word) || OptIContains(o.twitterHandle, word) || OptIContains(o.website, word)
    || OptIContains(o.twitterDescription, word) || IContains(o.weVoteId, word)
    || OptIContains(o.voteSmartId, word)
  }

  /** Names hidden from the default list: empty, or starting with "Voter-"
      or "wv" (organizations that stand for individual voters). */
  predicate PlaceholderName(name: string) {
    name == "" || StartsWith(name, "Voter-") || StartsWith(name, "wv")
  }

  /** The type filter: UNKNOWN also admits unset types, any other value
      requires a case-insensitive match, and no value hides individuals. */
  predicate TypeAdmitted(typeFilter: string, orgType: Option<string>) {
    if Positive(typeFilter) then
      if typeFilter == UNKNOWN then
        OptIEquals(orgType, typeFilter) || orgType == None || orgType == Some("")
      else OptIEquals(orgType, typeFilter)
    else !OptIEquals(orgType, INDIVIDUAL)
  }

  /** The state, type and issue part of the list rule. */
  predicate BeforeSearch(q: ListRequest, o: OrganizationRow) {
    (Positive(q.stateCode) ==> OptIEquals(o.stateServedCode, q.stateCode))
    && TypeAdmitted(q.typeFilter, o.orgType)
    && (q.issueOrganizations.Some? ==> o.weVoteId in q.issueOrganizations.value)
  }

  /** The search part of the list rule: every word found, or, without a
      search string, no placeholder name. */
  predicate SearchAdmitted(search: string, o: OrganizationRow) {
    if Positive(search) then forall w :: w in Words(search) ==> WordFound(o, w)
    else !PlaceholderName(o.name)
  }

  /** The rule the list page applies to each organization. */
  predicate Admitted(q: ListRequest, o: OrganizationRow) {
    BeforeSearch(q, o) && SearchAdmitted(q.search, o)
  }

  /** The filters the page chains onto the queryset. */
  datatype OrgFilter =
    | StateServedIExact(code: string)
    | TypeIExact(typeCode: string)
    | TypeIExactOrUnset(typeCode: string)
    | ExcludeTypeIExact(typeCode: string)
    | WeVoteIdIn(ids: seq<string>)
    | AnyFieldIContains(word: string)
    | ExcludePlaceholderNames

  predicate Holds(f: OrgFilter, o: OrganizationRow) {
    match f
    case StateServedIExact(code) => OptIEquals(o.stateServedCode, code)
    case TypeIExact(t) => OptIEquals(o.orgType, t)
    case TypeIExactOrUnset(t) => OptIEquals(o.orgType, t) || o.orgType == None || o.orgType == Some("")
    case ExcludeTypeIExact(t) => !OptIEquals(o.orgType, t)
    case WeVoteIdIn(ids) => o.weVoteId in ids
    case AnyFieldIContains(w) => WordFound(o, w)
    case ExcludePlaceholderNames => !PlaceholderName(o.name)
  }

  /** The state stage: present only when a state code is given. */
  function StateFilters(q: ListRequest): seq<OrgFilter> {
    if Positive(q.stateCode) then [StateServedIExact(q.stateCode)] else []
  }

  /** The type stage, always present. */
  function TypeFilter(q: ListRequest): OrgFilter {
    if Positive(q.typeFilter) then
      if q.typeFilter == UNKNOWN then TypeIExactOrUnset(q.typeFilter) else TypeIExact(q.typeFilter)
    else ExcludeTypeIExact(INDIVIDUAL)
  }

  /** The issue stage: present only when the issue lookup gave a list. */
  function IssueFilters(q: ListRequest): seq<OrgFilter> {
    if q.issueOrganizations.Some? then [WeVoteIdIn(q.issueOrganizations.value)] else []
  }

  /** The filters chained before the search stage: state, type, issues. */
  function PreSearchFilters(q: ListRequest): seq<OrgFilter> {
    StateFilters(q) + [TypeFilter(q)] + IssueFilters(q)
  }

  /** One `icontains` filter per search word. */
  function WordFilters(words: seq<string>): (fs: seq<OrgFilter>)
    ensures |fs| == |words|
    ensures forall j :: 0 <= j < |words| ==> fs[j] == AnyFieldIContains(words[j])
  {
    if words == [] then [] else WordFilters(words[..|words| - 1]) + [AnyFieldIContains(words[|words| - 1])]
  }

  /** The whole chain the list page builds for a request. */
  function ListFilters(q: ListRequest): seq<OrgFilter> {
    PreSearchFilters(q)
    + if Positive(q.search) then WordFilters(Words(q.search)) else [ExcludePlaceholderNames]
  }

  lemma PreSearchMeaning(q: ListRequest, o: OrganizationRow)
    ensures AllHold(PreSearchFilters(q), Holds, o) <==> BeforeSearch(q, o)
  {
    var st, ty, iss := StateFilters(q), [TypeFilter(q)], IssueFilters(q);
    AllHoldAppend(st + ty, iss, Holds, o);
    AllHoldAppend(st, ty, Holds, o);
    assert AllHold(ty, Holds, o) <==> Holds(ty[0], o);
    assert AllHold(st, Holds, o) <==> (Positive(q.stateCode) ==> OptIEquals(o.stateServedCode, q.stateCode)) by {
      if Positive(q.stateCode) { assert AllHold(st, Holds, o) <==> Holds(st[0], o); }
    }
    assert AllHold(iss, Holds, o) <==> (q.issueOrganizations.Some? ==> o.weVoteId in q.issueOrganizations.value) by {
      if q.issueOrganizations.Some? { assert AllHold(iss, Holds, o) <==> Holds(iss[0], o); }
    }
  }

  /** One `icontains` filter per word admits the rows where every word is
      found. */
  lemma WordFiltersMeaning(words: seq<string>, o: OrganizationRow)
    ensures AllHold(WordFilters(words), Holds, o) <==> forall w :: w in words ==> WordFound(o, w)
  {
    var fs := WordFilters(words);
    if AllHold(fs, Holds, o) {
      forall w | w in words ensures WordFound(o, w) {
        var j :| 0 <= j < |words| && words[j] == w;
        assert Holds(fs[j], o);
      }
    }
    if forall w :: w in words ==> WordFound(o, w) {
      forall j | 0 <= j < |fs| ensures Holds(fs[j], o) {
        assert words[j] in words;
      }
    }
  }

  lemma SearchMeaning(search: string, o: OrganizationRow)
    ensures AllHold(if Positive(search) then WordFilters(Words(search)) else [ExcludePlaceholderNames], Holds, o)
        <==> SearchAdmitted(search, o)
  {
    if Positive(search) {
      WordFiltersMeaning(Words(search), o);
    } else {
      var post := [ExcludePlaceholderNames];
      assert AllHold(post, Holds, o) <==> Holds(post[0], o);
    }
  }

  /** The chain admits exactly the organizations the list rule admits. */
  lemma ListFiltersMeaning(q: ListRequest, o: OrganizationRow)
    ensures AllHold(ListFilters(q), Holds, o) <==> Admitted(q, o)
  {
    var post := if Positive(q.search) then WordFilters(Words(q.search)) else [ExcludePlaceholderNames];
    assert ListFilters(q) == PreSearchFilters(q) + post;
    AllHoldAppend(PreSearchFilters(q), post, Holds, o);
    PreSearchMeaning(q, o);
    SearchMeaning(q.search, o);
  }

  lemma ListSelectsAdmitted(q: ListRequest, rows: seq<OrganizationRow>)
    ensures Select(rows, ListFilters(q), Holds) == Select(rows, [q], Admitted)
  {
    forall o ensures AllHold(ListFilters(q), Holds, o) <==> AllHold([q], Admitted, o) {
      ListFiltersMeaning(q, o);
      assert [q][0] == q;
    }
    SelectSameRows(rows, ListFilters(q), Holds, [q], Admitted);
  }

  /** The list page: chains the state, type and issue filters, then one
      `icontains` filter per search word (or, without a search string, the
      exclusion of placeholder names), counts the result and cuts it for
      display. */
  method OrganizationListView(q: ListRequest, rows: seq<OrganizationRow>)
    returns (shown: seq<OrganizationRow>, count: nat)
    ensures count == |Select(rows, [q], Admitted)|
    ensures shown == Displayed(Select(rows, [q], Admitted), Positive(q.showMore), Positive(q.showAll))
  {
    var query := PreSearchStages(q, rows);
    query := SearchStage(q, rows, query);
    ListSelectsAdmitted(q, rows);
    count := |query|;
    if Positive(q.showMore) {
      shown := Take(query, MoreShown);
    } else if Positive(q.showAll) {
      shown := query;
    } else {
      shown := Take(query, DefaultShown);
    }
  }

  /** The state, type and issue stages of the chain. */
  method PreSearchStages(q: ListRequest, rows: seq<OrganizationRow>) returns (query: seq<OrganizationRow>)
    ensures query == Select(rows, PreSearchFilters(q), Holds)
  {
    query := rows;
    SelectNothing(rows, Holds);
    if Positive(q.stateCode) {
      query := Narrow(rows, [], query, StateServedIExact(q.stateCode), Holds);
      assert [] + [StateServedIExact(q.stateCode)] == StateFilters(q);
    }
    var typeStep;
    if Positive(q.typeFilter) {
      if q.typeFilter == UNKNOWN {
        typeStep := TypeIExactOrUnset(q.typeFilter);
      } else {
        typeStep := TypeIExact(q.typeFilter);
      }
    } else {
      // by default, individuals are not shown
      typeStep := ExcludeTypeIExact(INDIVIDUAL);
    }
    query := Narrow(rows, StateFilters(q), query, typeStep, Holds);
    if q.issueOrganizations.Some? {
      query := Narrow(rows, StateFilters(q) + [typeStep], query, WeVoteIdIn(q.issueOrganizations.value), Holds);
    } else {
      assert StateFilters(q) + [typeStep] + [] == StateFilters(q) + [typeStep];
    }
  }

  /** The search stage: one `icontains` filter per search word, or, without
      a search string, the exclusion of placeholder names. */
  method SearchStage(q: ListRequest, ghost rows: seq<OrganizationRow>, query: seq<OrganizationRow>)
    returns (query': seq<OrganizationRow>)
    requires query == Select(rows, PreSearchFilters(q), Holds)
    ensures query' == Select(rows, ListFilters(q), Holds)
  {
    if Positive(q.search) {
      query' := NarrowAll(rows, PreSearchFilters(q), query, WordFilters(Words(q.search)), Holds);
    } else {
      query' := Narrow(rows, PreSearchFilters(q), query, ExcludePlaceholderNames, Holds);
    }
  }

  /** With a search string, an organization is listed only if every word of
      the search is found in one of its six searched columns, and the
      default exclusion of placeholder names is not applied. */
  lemma SearchRequiresEveryWord(q: ListRequest, o: OrganizationRow, w: string)
    requires Positive(q.search) && Admitted(q, o) && w in Words(q.search)
    ensures WordFound(o, w)
  {
  }

  /** A search made of whitespace only yields no words, so it filters nothing
      and still switches off the default exclusion of placeholder names. */
  lemma BlankSearchKeepsPlaceholders(q: ListRequest, o: OrganizationRow)
    requires Positive(q.search) && forall i :: 0 <= i < |q.search| ==> IsSpace(q.search[i])
    requires BeforeSearch(q, o)
    ensures Admitted(q, o)
  {
    WordsEmptyIff(q.search);
  }

  /** Without a search string, placeholder names never appear. */
  lemma NoSearchHidesPlaceholders(q: ListRequest, o: OrganizationRow)
    requires !Positive(q.search) && PlaceholderName(o.name)
    ensures !Admitted(q, o)
  {
  }

  /** Without a type filter individuals never appear; with UNKNOWN, rows of
      unset type do. */
  lemma TypeFilterCases(q: ListRequest, o: OrganizationRow)
    ensures !Positive(q.typeFilter) && OptIEquals(o.orgType, INDIVIDUAL) ==> !Admitted(q, o)
    ensures q.typeFilter == UNKNOWN && (o.orgType == None || o.orgType == Some("")) ==> TypeAdmitted(q.typeFilter, o.orgType)
    ensures Positive(q.typeFilter) && q.typeFilter != UNKNOWN && Admitted(q, o) ==> OptIEquals(o.orgType, q.typeFilter)
  {
  }
}
