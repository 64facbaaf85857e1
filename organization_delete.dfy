/** Deleting an organization from the admin tool: the request must be
    confirmed, the organization must exist and have no issues attached, and
    its Twitter link must be removed first. */
module OrganizationDelete {
  import opened Wrappers
  import opened OrganizationModel

  /** What removing the organization's Twitter link reports. */
  datatype TwitterUnlinkResult = TwitterUnlinkResult(deleted: bool, notFound: bool, status: string)

  /** The collaborators of the delete view, outside this model, given as
      their answers: the organization stored under an id, the number of
      issues linked to a we_vote_id, and the Twitter-link removal. */
  datatype DeleteWorld = DeleteWorld(
    retrieve: int -> Option<OrganizationRow>,
    issueCount: string -> int,
    unlinkTwitter: string -> TwitterUnlinkResult)

  /** The calls the view makes, in order. */
  datatype Call =
    | Retrieve(organizationId: int)
    | CountIssues(organizationWeVoteId: string)
    | UnlinkTwitter(organizationWeVoteId: string)
    | Delete(organizationId: int)

  datatype DeleteOutcome =
    | NotConfirmed
    | NotFound
    | IssuesStillAttached
    | TwitterLinkNotDeleted(status: string)
    | Deleted

  /** The delete view for the posted organization id and confirmation flag:
      the outcome and the calls made. */
  function DeleteProcess(w: DeleteWorld, organizationId: int, confirmDelete: int): (r: (DeleteOutcome, seq<Call>))
    ensures r.0.NotConfirmed? <==> r.1 == []
    ensures r.0.Deleted? <==> |r.1| == 4
  {
    if !(confirmDelete > 0) then (NotConfirmed, [])
    else
      var found := w.retrieve(organizationId);
      if found.None? then (NotFound, [Retrieve(organizationId)])
      else
        var weVoteId := found.value.weVoteId;
        var counted := [Retrieve(organizationId), CountIssues(weVoteId)];
        if w.issueCount(weVoteId) > 0 then (IssuesStillAttached, counted)
        else
          var unlink := w.unlinkTwitter(weVoteId);
          var unlinked := counted + [UnlinkTwitter(weVoteId)];
          if !unlink.deleted && !unlink.notFound then (TwitterLinkNotDeleted(unlink.status), unlinked)
          else (Deleted, unlinked + [Delete(organizationId)])
  }

  predicate DeleteCalled(calls: seq<Call>) {
    exists c :: c in calls && c.Delete?
  }

  /** All checks of the view pass for this request. */
  predicate DeleteAllowed(w: DeleteWorld, organizationId: int, confirmDelete: int) {
    confirmDelete > 0
    && w.retrieve(organizationId).Some?
    && !(w.issueCount(w.retrieve(organizationId).value.weVoteId) > 0)
    && (w.unlinkTwitter(w.retrieve(organizationId).value.weVoteId).deleted
        || w.unlinkTwitter(w.retrieve(organizationId).value.weVoteId).notFound)
  }

  /** The organization is deleted exactly when every check passes, and then
      it is the posted id that is deleted, after its Twitter link. */
  lemma DeletedOnlyAfterAllChecks(w: DeleteWorld, organizationId: int, confirmDelete: int)
    ensures var (outcome, calls) := DeleteProcess(w, organizationId, confirmDelete);
      (DeleteCalled(calls) <==> DeleteAllowed(w, organizationId, confirmDelete))
      && (outcome.Deleted? <==> DeleteAllowed(w, organizationId, confirmDelete))
      && (DeleteCalled(calls) ==> calls[|calls| - 1] == Delete(organizationId) && calls[|calls| - 2].UnlinkTwitter?)
  {
    var (outcome, calls) := DeleteProcess(w, organizationId, confirmDelete);
    if DeleteCalled(calls) {
      var c :| c in calls && c.Delete?;
    }
    if DeleteAllowed(w, organizationId, confirmDelete) {
      assert calls[|calls| - 1].Delete?;
    }
  }

  /** The checks run in order; the first that fails decides the outcome,
      and a refused Twitter unlink is reported with its status. */
  lemma RefusalOrder(w: DeleteWorld, organizationId: int, confirmDelete: int)
    ensures var outcome := DeleteProcess(w, organizationId, confirmDelete).0;
      && (!(confirmDelete > 0) ==> outcome == NotConfirmed)
      && (confirmDelete > 0 && w.retrieve(organizationId).None? ==> outcome == NotFound)
      && ((confirmDelete > 0 && w.retrieve(organizationId).Some?
           && w.issueCount(w.retrieve(organizationId).value.weVoteId) > 0) ==> outcome == IssuesStillAttached)
      && ((confirmDelete > 0 && w.retrieve(organizationId).Some?
           && !(w.issueCount(w.retrieve(organizationId).value.weVoteId) > 0)
           && !w.unlinkTwitter(w.retrieve(organizationId).value.weVoteId).deleted
           && !w.unlinkTwitter(w.retrieve(organizationId).value.weVoteId).notFound)
          ==> outcome == TwitterLinkNotDeleted(w.unlinkTwitter(w.retrieve(organizationId).value.weVoteId).status))
  {
  }

  /** An organization with issues attached keeps its Twitter link: the
      unlink is never attempted. */
  lemma IssuesBlockBeforeUnlink(w: DeleteWorld, organizationId: int, confirmDelete: int)
    requires confirmDelete > 0 && w.retrieve(organizationId).Some?
    requires w.issueCount(w.retrieve(organizationId).value.weVoteId) > 0
    ensures forall c :: c in DeleteProcess(w, organizationId, confirmDelete).1 ==> !c.UnlinkTwitter? && !c.Delete?
  {
  }
}
