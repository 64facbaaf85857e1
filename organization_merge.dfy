/** The merge of two organizations in the admin tool: the refusal checks run
    before anything is moved, the admin-choice map built from the field
    conflict classification, and the order in which collaborators are called.
    Organization 1 is kept; organization 2 is merged into it. */
module OrganizationMerge {
  import opened Wrappers
  import opened Text

  /** Classification label meaning "both sides differ; the admin chooses". */
  const CONFLICT: string := "CONFLICT"
  /** Classification label meaning "take organization 2's value". */
  const CANDIDATE2: string := "CANDIDATE2"

  /** A stored organization as the merge view sees it: its keys and the
      values of its attributes by name (for `getattr`). */
  datatype MergeCandidate = MergeCandidate(id: int, weVoteId: string, attributes: map<string, string>)

  /** What the follower mover reports. The membership count is read from
      this result too; `None` means the result has no such key. */
  datatype FollowersMoveResult = FollowersMoveResult(
    status: string, followEntriesNotMoved: int, membershipLinkEntriesNotMoved: Option<int>)

  datatype MembershipMoveResult = MembershipMoveResult(status: string)

  datatype MergeResult = MergeResult(organizationsMerged: bool, status: string, organizationName: string)

  /** The POSTed merge form. */
  datatype MergeRequest = MergeRequest(
    merge: string,
    skip: string,
    organization1WeVoteId: string,
    organization2WeVoteId: string,
    redirectToOrganizationList: string,
    posted: map<string, string>)

  /** The collaborators of the merge view, all outside this model, given as
      their answers. */
  datatype MergeWorld = MergeWorld(
    voterLinkedTo: string -> bool,
    twitterLinkedTo: string -> bool,
    retrieve: string -> Option<MergeCandidate>,
    weVoteIdFromId: int -> string,
    idFromWeVoteId: string -> int,
    moveFollowers: (int, string, int, string) -> FollowersMoveResult,
    moveMemberships: (string, string) -> MembershipMoveResult,
    uniqueIdentifiers: seq<string>,
    conflictValues: (MergeCandidate, MergeCandidate) -> map<string, string>,
    mergeOrganizations: (string, string, map<string, string>) -> MergeResult)

  /** The calls the view makes, in order. */
  datatype Call =
    | LookUpVoter(organizationWeVoteId: string)
    | LookUpTwitterLink(organizationWeVoteId: string)
    | Retrieve(organizationWeVoteId: string)
    | MoveFollowers(fromId: int, fromWeVoteId: string, toId: int, toWeVoteId: string)
    | MoveMemberships(fromWeVoteId: string, toWeVoteId: string)
    | Merge(organization1WeVoteId: string, organization2WeVoteId: string, choices: map<string, string>)

  datatype MergeOutcome =
    | SkipNotImplemented
    | Organization2LinkedToVoter(status: string)
    | Organization2HasTwitterLink
    | Organization1NotFound
    | Organization2NotFound
    | FollowersNotMoved(status: string)
    | MembershipKeyMissing
    | MembershipLinksNotMoved(status: string)
    | MergeFailed(message: string)
    | Merged(organizationName: string, toOrganizationList: bool)

  // ------------------------------------------------------------ choices

  /** Whether organization 2's value of `attribute` goes into the admin-choice
      map: a conflict the admin settled for organization 2, or a field the
      classification already gives to organization 2. */
  predicate ChosenFromOrganization2(attribute: string, conflicts: map<string, string>,
                                    posted: map<string, string>, organization2WeVoteId: string)
  {
    (attribute in conflicts && conflicts[attribute] == CONFLICT
     && MapGet(posted, attribute + "_choice", "") == organization2WeVoteId)
    || (attribute in conflicts && conflicts[attribute] == CANDIDATE2)
  }

  /** The admin-choice map: organization 2's value for exactly the chosen
      fields, and nothing else. */
  function AdminMergeChoices(fields: seq<string>, conflicts: map<string, string>, posted: map<string, string>,
                             organization2: MergeCandidate, organization2WeVoteId: string): (choices: map<string, string>)
    requires forall f :: f in fields ==> f in organization2.attributes
    ensures forall f :: f in choices <==> f in fields && ChosenFromOrganization2(f, conflicts, posted, organization2WeVoteId)
    ensures forall f :: f in choices ==> choices[f] == organization2.attributes[f]
  {
    map f | f in fields && ChosenFromOrganization2(f, conflicts, posted, organization2WeVoteId) :: organization2.attributes[f]
  }

  /** The loop of the merge view that fills the admin-choice map field by
      field. */
  method BuildAdminMergeChoices(fields: seq<string>, conflicts: map<string, string>, posted: map<string, string>,
                                organization2: MergeCandidate, organization2WeVoteId: string)
    returns (choices: map<string, string>)
    requires forall f :: f in fields ==> f in organization2.attributes
    ensures forall f :: f in choices <==> f in fields && ChosenFromOrganization2(f, conflicts, posted, organization2WeVoteId)
    ensures forall f :: f in choices ==> choices[f] == organization2.attributes[f]
  {
    choices := map[];
    var i := 0;
    while i < |fields|
      invariant 0 <= i <= |fields|
      invariant forall f :: f in choices <==> f in fields[..i] && ChosenFromOrganization2(f, conflicts, posted, organization2WeVoteId)
      invariant forall f :: f in choices ==> choices[f] == organization2.attributes[f]
    {
      var attribute := fields[i];
      var conflictValue := if attribute in conflicts then Some(conflicts[attribute]) else None;
      if conflictValue == Some(CONFLICT) {
        var choice := MapGet(posted, attribute + "_choice", "");
        if organization2WeVoteId == choice {
          choices := choices[attribute := organization2.attributes[attribute]];
        }
      } else if conflictValue == Some(CANDIDATE2) {
        choices := choices[attribute := organization2.attributes[attribute]];
      }
      assert fields[..i + 1] == fields[..i] + [attribute];
      i := i + 1;
    }
    assert fields[..|fields|] == fields;
  }

  // ------------------------------------------------------------ the view

  /** Completes a (local id, we_vote_id) pair from whichever half is known:
      a present value is never replaced. */
  function CompleteKeys(id: int, weVoteId: string, weVoteIdFromId: int -> string, idFromWeVoteId: string -> int)
    : (r: (int, string))
    ensures id > 0 ==> r.0 == id
    ensures Positive(weVoteId) ==> r.1 == weVoteId
    ensures id > 0 && !Positive(weVoteId) ==> r.1 == weVoteIdFromId(id)
    ensures !(id > 0) && Positive(weVoteId) ==> r.0 == idFromWeVoteId(weVoteId)
    ensures !(id > 0) && !Positive(weVoteId) ==> r == (id, weVoteId)
  {
    if id > 0 && !Positive(weVoteId) then (id, weVoteIdFromId(id))
    else if Positive(weVoteId) && !(id > 0) then (idFromWeVoteId(weVoteId), weVoteId)
    else (id, weVoteId)
  }

  predicate MergeReady(w: MergeWorld, rq: MergeRequest) {
    var o2 := w.retrieve(rq.organization2WeVoteId);
    o2.Some? ==> forall f :: f in w.uniqueIdentifiers ==> f in o2.value.attributes
  }

  /** The merge view: the outcome it reports and the calls it made. */
  function MergeProcess(w: MergeWorld, rq: MergeRequest): (r: (MergeOutcome, seq<Call>))
    requires MergeReady(w, rq)
    ensures r.1 == [] <==> Positive(rq.skip)
    ensures r.1 != [] ==> r.1[0] == LookUpVoter(rq.organization2WeVoteId)
    ensures r.0.Merged? ==> |r.1| == 7 && r.1[6].Merge?
  {
    var id1, id2 := rq.organization1WeVoteId, rq.organization2WeVoteId;
    if Positive(rq.skip) then (SkipNotImplemented, [])
    else if w.voterLinkedTo(id2) then
      (Organization2LinkedToVoter("MERGE_PROCESS_VIEW-ORGANIZATION2_LINKED_TO_A_VOTER "), [LookUpVoter(id2)])
    else if w.twitterLinkedTo(id2) then
      (Organization2HasTwitterLink, [LookUpVoter(id2), LookUpTwitterLink(id2)])
    else
      var lookups := [LookUpVoter(id2), LookUpTwitterLink(id2), Retrieve(id1)];
      var o1 := w.retrieve(id1);
      if o1.None? then (Organization1NotFound, lookups)
      else
        var o2 := w.retrieve(id2);
        if o2.None? then (Organization2NotFound, lookups + [Retrieve(id2)])
        else
          var (outcome, moves) := MoveAndMerge(w, rq, o1.value, o2.value);
          (outcome, lookups + [Retrieve(id2)] + moves)
  }

  /** The second half of the merge view, once both organizations are found:
      the two movers, then the merge. The outcome and the calls made. */
  function MoveAndMerge(w: MergeWorld, rq: MergeRequest, o1: MergeCandidate, o2: MergeCandidate)
    : (r: (MergeOutcome, seq<Call>))
    requires forall f :: f in w.uniqueIdentifiers ==> f in o2.attributes
    ensures 1 <= |r.1| <= 3 && r.1[0].MoveFollowers?
    ensures r.1[0].fromWeVoteId == o2.weVoteId || !Positive(o2.weVoteId)
    ensures r.1[0].toWeVoteId == o1.weVoteId || !Positive(o1.weVoteId)
    ensures |r.1| > 1 ==> r.1[1] == MoveMemberships(r.1[0].fromWeVoteId, r.1[0].toWeVoteId)
    ensures |r.1| > 2 ==> r.1[2].Merge?
  {
    var id1, id2 := rq.organization1WeVoteId, rq.organization2WeVoteId;
    var from := CompleteKeys(o2.id, o2.weVoteId, w.weVoteIdFromId, w.idFromWeVoteId);
    var to := CompleteKeys(o1.id, o1.weVoteId, w.weVoteIdFromId, w.idFromWeVoteId);
    var followers := w.moveFollowers(from.0, from.1, to.0, to.1);
    var moved := [MoveFollowers(from.0, from.1, to.0, to.1)];
    var status := " " + followers.status;
    if followers.followEntriesNotMoved > 0 then (FollowersNotMoved(status), moved)
    else
      var memberships := w.moveMemberships(from.1, to.1);
      var status' := status + " " + memberships.status;
      var moved' := moved + [MoveMemberships(from.1, to.1)];
      // the membership count is read from the follower mover's result
      if followers.membershipLinkEntriesNotMoved.None? then (MembershipKeyMissing, moved')
      else if followers.membershipLinkEntriesNotMoved.value > 0 then (MembershipLinksNotMoved(status'), moved')
      else
        var choices := AdminMergeChoices(w.uniqueIdentifiers, w.conflictValues(o1, o2), rq.posted, o2, id2);
        var result := w.mergeOrganizations(id1, id2, choices);
        var calls := moved' + [Merge(id1, id2, choices)];
        if !result.organizationsMerged then
          (MergeFailed("ORGANIZATION_COMPARISON_PROBLEM: " + result.status), calls)
        else (Merged(result.organizationName, Positive(rq.redirectToOrganizationList)), calls)
  }

  predicate MergeCalled(calls: seq<Call>) {
    exists c :: c in calls && c.Merge?
  }

  predicate MoverCalled(calls: seq<Call>) {
    exists c :: c in calls && (c.MoveFollowers? || c.MoveMemberships?)
  }

  /** The merge is invoked only when every refusal check passed: no skip,
      organization 2 linked neither to a voter nor to a Twitter account, both
      organizations found, and neither mover reported entries left behind. */
  lemma MergeOnlyAfterAllChecks(w: MergeWorld, rq: MergeRequest)
    requires MergeReady(w, rq)
    ensures var (outcome, calls) := MergeProcess(w, rq);
      MergeCalled(calls) <==>
        !Positive(rq.skip)
        && !w.voterLinkedTo(rq.organization2WeVoteId)
        && !w.twitterLinkedTo(rq.organization2WeVoteId)
        && w.retrieve(rq.organization1WeVoteId).Some?
        && w.retrieve(rq.organization2WeVoteId).Some?
        && MoveResultsClean(w, rq)
  {
    var (outcome, calls) := MergeProcess(w, rq);
    if MergeCalled(calls) {
      var c :| c in calls && c.Merge?;
    }
    if !Positive(rq.skip) && !w.voterLinkedTo(rq.organization2WeVoteId) && !w.twitterLinkedTo(rq.organization2WeVoteId)
       && w.retrieve(rq.organization1WeVoteId).Some? && w.retrieve(rq.organization2WeVoteId).Some?
       && MoveResultsClean(w, rq) {
      assert calls[|calls| - 1].Merge?;
    }
  }

  /** The follower mover's result for this request (once both organizations
      are found) says that nothing was left behind, by both of its counts. */
  predicate MoveResultsClean(w: MergeWorld, rq: MergeRequest)
    requires w.retrieve(rq.organization1WeVoteId).Some? && w.retrieve(rq.organization2WeVoteId).Some?
  {
    var o1, o2 := w.retrieve(rq.organization1WeVoteId).value, w.retrieve(rq.organization2WeVoteId).value;
    var from := CompleteKeys(o2.id, o2.weVoteId, w.weVoteIdFromId, w.idFromWeVoteId);
    var to := CompleteKeys(o1.id, o1.weVoteId, w.weVoteIdFromId, w.idFromWeVoteId);
    var followers := w.moveFollowers(from.0, from.1, to.0, to.1);
    !(followers.followEntriesNotMoved > 0)
    && followers.membershipLinkEntriesNotMoved.Some? && !(followers.membershipLinkEntriesNotMoved.value > 0)
  }

  /** A refusal for a voter or Twitter link to organization 2 happens before
      anything is moved: no mover and no merge is called. */
  lemma LinkedOrganization2MovesNothing(w: MergeWorld, rq: MergeRequest)
    requires MergeReady(w, rq)
    requires w.voterLinkedTo(rq.organization2WeVoteId) || w.twitterLinkedTo(rq.organization2WeVoteId)
    ensures !MoverCalled(MergeProcess(w, rq).1) && !MergeCalled(MergeProcess(w, rq).1)
  {
  }

  /** The checks run in order: the first one that fails decides the outcome. */
  lemma RefusalOrder(w: MergeWorld, rq: MergeRequest)
    requires MergeReady(w, rq)
    ensures Positive(rq.skip) ==> MergeProcess(w, rq) == (SkipNotImplemented, [])
    ensures !Positive(rq.skip) && w.voterLinkedTo(rq.organization2WeVoteId) ==>
      MergeProcess(w, rq).0.Organization2LinkedToVoter?
    ensures !Positive(rq.skip) && !w.voterLinkedTo(rq.organization2WeVoteId) && w.twitterLinkedTo(rq.organization2WeVoteId) ==>
      MergeProcess(w, rq).0 == Organization2HasTwitterLink
    ensures (!Positive(rq.skip) && !w.voterLinkedTo(rq.organization2WeVoteId) && !w.twitterLinkedTo(rq.organization2WeVoteId)
             && w.retrieve(rq.organization1WeVoteId).None?)
      ==> MergeProcess(w, rq).0 == Organization1NotFound
    ensures (!Positive(rq.skip) && !w.voterLinkedTo(rq.organization2WeVoteId) && !w.twitterLinkedTo(rq.organization2WeVoteId)
             && w.retrieve(rq.organization1WeVoteId).Some? && w.retrieve(rq.organization2WeVoteId).None?)
      ==> MergeProcess(w, rq).0 == Organization2NotFound
  {
  }

  /** Every refusal check before the movers passes. */
  predicate ReachesMovers(w: MergeWorld, rq: MergeRequest) {
    !Positive(rq.skip)
    && !w.voterLinkedTo(rq.organization2WeVoteId)
    && !w.twitterLinkedTo(rq.organization2WeVoteId)
    && w.retrieve(rq.organization1WeVoteId).Some?
    && w.retrieve(rq.organization2WeVoteId).Some?
  }

  /** The calls of the view: only lookups when a refusal check fails,
      otherwise the four lookups followed by the movers and the merge. */
  lemma MergeProcessShape(w: MergeWorld, rq: MergeRequest)
    requires MergeReady(w, rq)
    ensures !ReachesMovers(w, rq) ==>
      forall j :: 0 <= j < |MergeProcess(w, rq).1| ==>
        var c := MergeProcess(w, rq).1[j]; c.LookUpVoter? || c.LookUpTwitterLink? || c.Retrieve?
    ensures ReachesMovers(w, rq) ==>
      var id1, id2 := rq.organization1WeVoteId, rq.organization2WeVoteId;
      MergeProcess(w, rq).1
      == [LookUpVoter(id2), LookUpTwitterLink(id2), Retrieve(id1), Retrieve(id2)]
         + MoveAndMerge(w, rq, w.retrieve(id1).value, w.retrieve(id2).value).1
  {
  }

  /** The followers of organization 2 are moved to organization 1 (its
      we_vote_id completed from its id when it has none). */
  lemma FollowersMoveFromOrganization2ToOrganization1(w: MergeWorld, rq: MergeRequest, k: nat)
    requires MergeReady(w, rq)
    requires k < |MergeProcess(w, rq).1| && MergeProcess(w, rq).1[k].MoveFollowers?
    ensures var c := MergeProcess(w, rq).1[k];
      var o1, o2 := w.retrieve(rq.organization1WeVoteId), w.retrieve(rq.organization2WeVoteId);
      o1.Some? && o2.Some?
      && (c.fromWeVoteId == o2.value.weVoteId || !Positive(o2.value.weVoteId))
      && (c.toWeVoteId == o1.value.weVoteId || !Positive(o1.value.weVoteId))
  {
    MergeProcessShape(w, rq);
    assert ReachesMovers(w, rq);
    var o1, o2 := w.retrieve(rq.organization1WeVoteId).value, w.retrieve(rq.organization2WeVoteId).value;
    var moves := MoveAndMerge(w, rq, o1, o2).1;
    assert MergeProcess(w, rq).1[k] == moves[k - 4];
  }

  /** The membership mover runs right after the follower mover, between the
      same two organizations. */
  lemma MembershipsMoveAfterFollowers(w: MergeWorld, rq: MergeRequest, k: nat)
    requires MergeReady(w, rq)
    requires k < |MergeProcess(w, rq).1| && MergeProcess(w, rq).1[k].MoveMemberships?
    ensures var calls := MergeProcess(w, rq).1;
      k > 0 && calls[k - 1].MoveFollowers?
      && calls[k].fromWeVoteId == calls[k - 1].fromWeVoteId && calls[k].toWeVoteId == calls[k - 1].toWeVoteId
  {
    MergeProcessShape(w, rq);
    assert ReachesMovers(w, rq);
    var o1, o2 := w.retrieve(rq.organization1WeVoteId).value, w.retrieve(rq.organization2WeVoteId).value;
    var moves := MoveAndMerge(w, rq, o1, o2).1;
    assert MergeProcess(w, rq).1[k] == moves[k - 4];
    assert MergeProcess(w, rq).1[k - 1] == moves[k - 5];
  }

  /** The membership stage reads the follower mover's result: the membership
      mover's own report never decides whether the merge goes ahead. */
  lemma MembershipGateIgnoresMembershipMover(w: MergeWorld, rq: MergeRequest, report: (string, string) -> MembershipMoveResult)
    requires MergeReady(w, rq)
    ensures MergeCalled(MergeProcess(w, rq).1) == MergeCalled(MergeProcess(w.(moveMemberships := report), rq).1)
  {
    MergeOnlyAfterAllChecks(w, rq);
    MergeOnlyAfterAllChecks(w.(moveMemberships := report), rq);
  }
}
