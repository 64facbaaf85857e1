/** Saving an organization's position from the admin tool: the organization
    must exist, the position is about a candidate or, failing that, a
    measure, an existing position is found by its we_vote_id or by the
    organization, ballot item and election, and it is then updated in place
    or a new one is created. */
module PositionEdit {
  import opened Wrappers
  import opened Text
  import opened Stances

  /** A stored position, as far as this form writes it. */
  datatype Position = Position(
    organizationId: int,
    organizationWeVoteId: Option<string>,
    candidateCampaignId: int,
    candidateCampaignWeVoteId: string,
    googleCivicCandidateName: string,
    contestMeasureId: int,
    contestMeasureWeVoteId: string,
    googleCivicMeasureTitle: string,
    googleCivicElectionId: int,
    stance: string,
    statementText: Option<string>,
    moreInfoUrl: Option<string>,
    stateCode: string)

  /** The posted form. `stance` is `None` when the form did not send one. */
  datatype PositionForm = PositionForm(
    googleCivicElectionId: int,
    organizationId: int,
    positionWeVoteId: string,
    candidateCampaignId: int,
    contestMeasureId: int,
    stance: Option<string>,
    statementText: string,
    moreInfoUrl: string,
    saveButton: bool)

  /** The stance to store: SUPPORT when none was posted. */
  function PostedStance(f: PositionForm): (r: string)
    ensures f.stance.None? ==> r == SUPPORT
    ensures f.stance.Some? ==> r == f.stance.value
  {
    f.stance.GetOr(SUPPORT)
  }

  /** A candidate or a measure as the form needs it. */
  datatype BallotItem = BallotItem(weVoteId: string, name: string, stateCode: string)

  /** The organization, candidate and measure tables, by id, outside this
      model. The organization lookup answers with its we_vote_id. */
  datatype PositionWorld = PositionWorld(
    organizationById: int -> Option<string>,
    candidateById: int -> Option<BallotItem>,
    measureById: int -> Option<BallotItem>)

  /** The ballot item a position is about, as it is written to the position:
      a candidate (and then no measure id) or a measure (and then no
      candidate id). */
  datatype Subject = Subject(
    candidateCampaignId: int,
    candidateCampaignWeVoteId: string,
    googleCivicCandidateName: string,
    contestMeasureId: int,
    contestMeasureWeVoteId: string,
    googleCivicMeasureTitle: string,
    stateCode: string)

  datatype PositionOutcome =
    | OrganizationNotFound
    | CandidateNotFound(backToEditForm: bool)
    | MeasureNotFound(backToEditForm: bool)
    | MeasureLookupRaised
    | NeitherCandidateNorMeasure
    | MissingBothIds
    | MultiplePositionsFound
    | NotSaved
    | Updated(fromNewForm: bool)
    | Created

  datatype Choice = Chosen(subject: Subject) | Refused(outcome: PositionOutcome)

  /** The candidate or measure the position is about. A non-zero candidate
      id wins (and the measure id is then dropped); a non-zero measure id is
      used only without one; a missing ballot item sends the admin back to
      the edit form when a position we_vote_id was posted, to the new form
      otherwise. */
  function ChooseSubject(f: PositionForm, w: PositionWorld): (r: Choice)
    ensures r.Chosen? ==> (r.subject.candidateCampaignId != 0) != (r.subject.contestMeasureId != 0)
    ensures f.candidateCampaignId != 0 ==>
      (r.Chosen? <==> w.candidateById(f.candidateCampaignId).Some?)
      && (r.Chosen? ==> r.subject.candidateCampaignId == f.candidateCampaignId
                        && r.subject.candidateCampaignWeVoteId == w.candidateById(f.candidateCampaignId).value.weVoteId)
    ensures f.candidateCampaignId == 0 && f.contestMeasureId != 0 ==>
      (r.Chosen? <==> w.measureById(f.contestMeasureId).Some?)
      && (r.Chosen? ==> r.subject.contestMeasureId == f.contestMeasureId
                        && r.subject.contestMeasureWeVoteId == w.measureById(f.contestMeasureId).value.weVoteId)
    ensures f.candidateCampaignId == 0 && f.contestMeasureId == 0 ==> r == Refused(NeitherCandidateNorMeasure)
    ensures f.candidateCampaignId != 0 && w.candidateById(f.candidateCampaignId).None? ==>
      r == Refused(CandidateNotFound(Positive(f.positionWeVoteId)))
    ensures f.candidateCampaignId == 0 && f.contestMeasureId != 0 && w.measureById(f.contestMeasureId).None? ==>
      r == Refused(MeasureNotFound(Positive(f.positionWeVoteId)))
    ensures r.Refused? ==> r.outcome.CandidateNotFound? || r.outcome.MeasureNotFound? || r.outcome.NeitherCandidateNorMeasure?
  {
    if f.candidateCampaignId != 0 then
      match w.candidateById(f.candidateCampaignId)
      case Some(c) => Chosen(Subject(f.candidateCampaignId, c.weVoteId, c.name, 0, "", "", c.stateCode))
      case None => Refused(CandidateNotFound(Positive(f.positionWeVoteId)))
    else if f.contestMeasureId != 0 then
      match w.measureById(f.contestMeasureId)
      case Some(m) => Chosen(Subject(0, "", "", f.contestMeasureId, m.weVoteId, m.name, m.stateCode))
      case None => Refused(MeasureNotFound(Positive(f.positionWeVoteId)))
    else Refused(NeitherCandidateNorMeasure)
  }

  /** `ChooseSubject` as the view is written: the measure lookup guards
      against the candidate table's exceptions only, so a missing measure
      raises out of the view instead of sending the admin back to a form. */
  function ChooseSubjectAsWritten(f: PositionForm, w: PositionWorld): (r: Choice)
    ensures f.candidateCampaignId == 0 && f.contestMeasureId != 0 && w.measureById(f.contestMeasureId).None? ==>
      r == Refused(MeasureLookupRaised)
  {
    if f.candidateCampaignId != 0 then
      match w.candidateById(f.candidateCampaignId)
      case Some(c) => Chosen(Subject(f.candidateCampaignId, c.weVoteId, c.name, 0, "", "", c.stateCode))
      case None => Refused(CandidateNotFound(Positive(f.positionWeVoteId)))
    else if f.contestMeasureId != 0 then
      match w.measureById(f.contestMeasureId)
      case Some(m) => Chosen(Subject(0, "", "", f.contestMeasureId, m.weVoteId, m.name, m.stateCode))
      case None => Refused(MeasureLookupRaised)
    else Refused(NeitherCandidateNorMeasure)
  }

  /** As written, the "could not find measure" redirect is never reached,
      and the view differs from the intended `ChooseSubject` exactly on a
      form that names a missing measure and no candidate. */
  lemma MeasureRedirectUnreachable(f: PositionForm, w: PositionWorld)
    ensures !ChooseSubjectAsWritten(f, w).Refused? || !ChooseSubjectAsWritten(f, w).outcome.MeasureNotFound?
    ensures ChooseSubjectAsWritten(f, w) != ChooseSubject(f, w) <==>
      f.candidateCampaignId == 0 && f.contestMeasureId != 0 && w.measureById(f.contestMeasureId).None?
  {
  }

  /** A concrete form that shows it: measure 7 is not stored. */
  lemma MissingMeasureRaises()
    ensures var f := PositionForm(1, 2, "", 0, 7, None, "", "", true);
            var w := PositionWorld(_ => Some("wv1org1"), _ => None, _ => None);
            ChooseSubjectAsWritten(f, w) == Refused(MeasureLookupRaised)
            && ChooseSubject(f, w) == Refused(MeasureNotFound(false))
  {
  }

  /** What a lookup of the organization's position on a ballot item in an
      election reports. */
  datatype LookupSummary = LookupSummary(multiple: bool, found: bool)

  /** The view's decision for a posted form, given whether the position
      we_vote_id names a stored position and what the lookups by candidate
      and by measure report. */
  function PositionDecision(f: PositionForm, w: PositionWorld, foundByWeVoteId: bool,
                            forCandidate: LookupSummary, forMeasure: LookupSummary): (r: PositionOutcome)
    ensures r == OrganizationNotFound <==> w.organizationById(f.organizationId).None?
    ensures (r.Updated? || r.Created?) ==> f.saveButton && ChooseSubject(f, w).Chosen?
    ensures r.Updated? && !r.fromNewForm ==> Positive(f.positionWeVoteId) && foundByWeVoteId
  {
    if w.organizationById(f.organizationId).None? then OrganizationNotFound
    else match ChooseSubject(f, w)
      case Refused(outcome) => outcome
      case Chosen(s) =>
        if Positive(f.positionWeVoteId) && foundByWeVoteId then
          if f.saveButton then Updated(false) else NotSaved
        else
          var lookup := if s.candidateCampaignId != 0 then Some(forCandidate)
                        else if s.contestMeasureId != 0 then Some(forMeasure)
                        else None;
          if lookup.None? then MissingBothIds
          else if lookup.value.multiple then MultiplePositionsFound
          else if !f.saveButton then NotSaved
          else if lookup.value.found then Updated(true)
          else Created
  }

  /** A posted text replaces the stored one on the edit form always, and on
      the new form only when it is not blank. */
  function Overwritten(prior: Option<string>, posted: string, fromNewForm: bool): (r: Option<string>)
    ensures !fromNewForm || Positive(posted) ==> r == Some(posted)
    ensures fromNewForm && !Positive(posted) ==> r == prior
  {
    if !fromNewForm || Positive(posted) then Some(posted) else prior
  }

  /** The organization's we_vote_id is written only where none is stored. */
  function FilledIfBlank(prior: Option<string>, value: string): (r: Option<string>)
    ensures prior.Some? && Positive(prior.value) ==> r == prior
    ensures !(prior.Some? && Positive(prior.value)) ==> r == Some(value)
  {
    if prior.Some? && Positive(prior.value) then prior else Some(value)
  }

  /** A stored position after the update of the save. */
  function UpdatedPosition(p: Position, f: PositionForm, s: Subject, organizationWeVoteId: string,
                           fromNewForm: bool): Position {
    p.(stance := PostedStance(f),
       googleCivicElectionId := f.googleCivicElectionId,
       moreInfoUrl := Overwritten(p.moreInfoUrl, f.moreInfoUrl, fromNewForm),
       statementText := Overwritten(p.statementText, f.statementText, fromNewForm),
       organizationWeVoteId := FilledIfBlank(p.organizationWeVoteId, organizationWeVoteId),
       candidateCampaignId := s.candidateCampaignId,
       candidateCampaignWeVoteId := s.candidateCampaignWeVoteId,
       googleCivicCandidateName := s.googleCivicCandidateName,
       contestMeasureId := s.contestMeasureId,
       contestMeasureWeVoteId := s.contestMeasureWeVoteId,
       googleCivicMeasureTitle := s.googleCivicMeasureTitle,
       stateCode := s.stateCode)
  }

  /** The position the save creates. */
  function NewPosition(f: PositionForm, s: Subject, organizationWeVoteId: string): Position {
    Position(f.organizationId, Some(organizationWeVoteId),
             s.candidateCampaignId, s.candidateCampaignWeVoteId, s.googleCivicCandidateName,
             s.contestMeasureId, s.contestMeasureWeVoteId, s.googleCivicMeasureTitle,
             f.googleCivicElectionId, PostedStance(f), Some(f.statementText), Some(f.moreInfoUrl), s.stateCode)
  }

  /** A position the view holds while saving. */
  class PositionOnStage {
    var organizationId: int
    var organizationWeVoteId: Option<string>
    var candidateCampaignId: int
    var candidateCampaignWeVoteId: string
    var googleCivicCandidateName: string
    var contestMeasureId: int
    var contestMeasureWeVoteId: string
    var googleCivicMeasureTitle: string
    var googleCivicElectionId: int
    var stance: string
    var statementText: Option<string>
    var moreInfoUrl: Option<string>
    var stateCode: string

    function Current(): Position
      reads this
    {
      Position(organizationId, organizationWeVoteId, candidateCampaignId, candidateCampaignWeVoteId,
               googleCivicCandidateName, contestMeasureId, contestMeasureWeVoteId, googleCivicMeasureTitle,
               googleCivicElectionId, stance, statementText, moreInfoUrl, stateCode)
    }

    /** `PositionEntered(...)`: the new position of the save. */
    constructor Create(f: PositionForm, s: Subject, organizationWeVoteId: string)
      ensures Current() == NewPosition(f, s, organizationWeVoteId)
    {
      this.organizationId := f.organizationId;
      this.organizationWeVoteId := Some(organizationWeVoteId);
      this.candidateCampaignId := s.candidateCampaignId;
      this.candidateCampaignWeVoteId := s.candidateCampaignWeVoteId;
      this.googleCivicCandidateName := s.googleCivicCandidateName;
      this.contestMeasureId := s.contestMeasureId;
      this.contestMeasureWeVoteId := s.contestMeasureWeVoteId;
      this.googleCivicMeasureTitle := s.googleCivicMeasureTitle;
      this.googleCivicElectionId := f.googleCivicElectionId;
      this.stance := PostedStance(f);
      this.statementText := Some(f.statementText);
      this.moreInfoUrl := Some(f.moreInfoUrl);
      this.stateCode := s.stateCode;
    }

    /** The update of the save, field by field. */
    method ApplyUpdate(f: PositionForm, s: Subject, organizationWeVoteId: string, fromNewForm: bool)
      modifies this`stance, this`googleCivicElectionId, this`moreInfoUrl, this`statementText,
               this`organizationWeVoteId, this`candidateCampaignId, this`candidateCampaignWeVoteId,
               this`googleCivicCandidateName, this`contestMeasureId, this`contestMeasureWeVoteId,
               this`googleCivicMeasureTitle, this`stateCode
      ensures Current() == UpdatedPosition(old(Current()), f, s, organizationWeVoteId, fromNewForm)
    {
      ApplyPostedValues(f, organizationWeVoteId, fromNewForm);
      ApplySubject(s);
    }

    /** Stance, election, the two texts under the overwrite rule, and the
        organization's we_vote_id where none is stored. */
    method ApplyPostedValues(f: PositionForm, ownerWeVoteId: string, fromNewForm: bool)
      modifies this`stance, this`googleCivicElectionId, this`moreInfoUrl, this`statementText,
               this`organizationWeVoteId
      ensures stance == PostedStance(f) && googleCivicElectionId == f.googleCivicElectionId
      ensures moreInfoUrl == Overwritten(old(moreInfoUrl), f.moreInfoUrl, fromNewForm)
      ensures statementText == Overwritten(old(statementText), f.statementText, fromNewForm)
      ensures organizationWeVoteId == FilledIfBlank(old(organizationWeVoteId), ownerWeVoteId)
    {
      stance := PostedStance(f);
      googleCivicElectionId := f.googleCivicElectionId;
      if !fromNewForm || Positive(f.moreInfoUrl) {
        moreInfoUrl := Some(f.moreInfoUrl);
      }
      if !fromNewForm || Positive(f.statementText) {
        statementText := Some(f.statementText);
      }
      if !(this.organizationWeVoteId.Some? && Positive(this.organizationWeVoteId.value)) {
        this.organizationWeVoteId := Some(ownerWeVoteId);
      }
    }

    /** The ballot-item columns. */
    method ApplySubject(s: Subject)
      modifies this`candidateCampaignId, this`candidateCampaignWeVoteId, this`googleCivicCandidateName,
               this`contestMeasureId, this`contestMeasureWeVoteId, this`googleCivicMeasureTitle, this`stateCode
      ensures candidateCampaignId == s.candidateCampaignId && candidateCampaignWeVoteId == s.candidateCampaignWeVoteId
      ensures googleCivicCandidateName == s.googleCivicCandidateName && contestMeasureId == s.contestMeasureId
      ensures contestMeasureWeVoteId == s.contestMeasureWeVoteId && googleCivicMeasureTitle == s.googleCivicMeasureTitle
      ensures stateCode == s.stateCode
    {
      candidateCampaignId := s.candidateCampaignId;
      candidateCampaignWeVoteId := s.candidateCampaignWeVoteId;
      googleCivicCandidateName := s.googleCivicCandidateName;
      contestMeasureId := s.contestMeasureId;
      contestMeasureWeVoteId := s.contestMeasureWeVoteId;
      googleCivicMeasureTitle := s.googleCivicMeasureTitle;
      stateCode := s.stateCode;
    }
  }

  /** What a lookup by ballot item returns: whether it found more than one
      position, and the one it found. */
  datatype PositionLookup = PositionLookup(multiple: bool, position: PositionOnStage?)

  function Summary(l: PositionLookup): LookupSummary {
    LookupSummary(l.multiple, l.position != null)
  }

  /** The save of the position form. `byWeVoteId` is the stored position the
      posted we_vote_id names (null when there is none); `forCandidate` and
      `forMeasure` are what the lookups of the organization's position on the
      posted candidate and measure in the posted election return. */
  method PositionEditProcess(f: PositionForm, w: PositionWorld, byWeVoteId: PositionOnStage?,
                             forCandidate: PositionLookup, forMeasure: PositionLookup)
    returns (outcome: PositionOutcome, saved: PositionOnStage?)
    modifies byWeVoteId, forCandidate.position, forMeasure.position
    ensures outcome == PositionDecision(f, w, byWeVoteId != null, Summary(forCandidate), Summary(forMeasure))
    ensures outcome.Updated? ==>
      saved != null
      && saved == (if !outcome.fromNewForm then byWeVoteId
                   else if ChooseSubject(f, w).subject.candidateCampaignId != 0 then forCandidate.position
                   else forMeasure.position)
      && saved.Current() == UpdatedPosition(old(saved.Current()), f, ChooseSubject(f, w).subject,
                                            w.organizationById(f.organizationId).value, outcome.fromNewForm)
    ensures outcome.Created? ==>
      saved != null && fresh(saved)
      && saved.Current() == NewPosition(f, ChooseSubject(f, w).subject, w.organizationById(f.organizationId).value)
    ensures !outcome.Updated? && !outcome.Created? ==> saved == null
    ensures !outcome.Updated? && byWeVoteId != null ==> unchanged(byWeVoteId)
    ensures !outcome.Updated? && forCandidate.position != null ==> unchanged(forCandidate.position)
    ensures !outcome.Updated? && forMeasure.position != null ==> unchanged(forMeasure.position)
    ensures outcome.Updated? && byWeVoteId != null && byWeVoteId != saved ==> unchanged(byWeVoteId)
    ensures outcome.Updated? && forCandidate.position != null && forCandidate.position != saved
            ==> unchanged(forCandidate.position)
    ensures outcome.Updated? && forMeasure.position != null && forMeasure.position != saved
            ==> unchanged(forMeasure.position)
  {
    saved := null;
    var organization := w.organizationById(f.organizationId);
    if organization.None? {
      outcome := OrganizationNotFound;
      return;
    }
    var choice := ChooseSubject(f, w);
    if choice.Refused? {
      outcome := choice.outcome;
      return;
    }
    var s := choice.subject;
    var found: PositionOnStage? := null;
    var fromNewForm := false;
    if Positive(f.positionWeVoteId) {
      found := byWeVoteId;
    }
    if found == null {
      var lookup;
      if s.candidateCampaignId != 0 {
        lookup := forCandidate;
      } else if s.contestMeasureId != 0 {
        lookup := forMeasure;
      } else {
        outcome := MissingBothIds;
        return;
      }
      if lookup.multiple {
        outcome := MultiplePositionsFound;
        return;
      }
      if lookup.position != null {
        found := lookup.position;
        fromNewForm := true;
      }
    }
    if !f.saveButton {
      outcome := NotSaved;
      return;
    }
    if found != null {
      found.ApplyUpdate(f, s, organization.value, fromNewForm);
      saved := found;
      outcome := Updated(fromNewForm);
    } else {
      saved := new PositionOnStage.Create(f, s, organization.value);
      outcome := Created;
    }
  }

  /** The "missing both ids" branch of the lookup cannot be reached: the
      ballot-item choice has already refused a form without either id. */
  lemma MissingBothIdsUnreachable(f: PositionForm, w: PositionWorld, foundByWeVoteId: bool,
                                  forCandidate: LookupSummary, forMeasure: LookupSummary)
    ensures PositionDecision(f, w, foundByWeVoteId, forCandidate, forMeasure) != MissingBothIds
  {
  }

  /** With both a candidate id and a measure id, the candidate decides: the
      measure is never looked at and the saved position names no measure. */
  lemma CandidateTakesPrecedence(f: PositionForm, w: PositionWorld, w': PositionWorld)
    requires f.candidateCampaignId != 0 && f.contestMeasureId != 0
    requires w'.candidateById == w.candidateById
    ensures ChooseSubject(f, w) == ChooseSubject(f, w')
    ensures ChooseSubject(f, w).Chosen? ==> ChooseSubject(f, w).subject.contestMeasureId == 0
    ensures ChooseSubject(f, w).Refused? ==> ChooseSubject(f, w).outcome.CandidateNotFound?
  {
  }

  /** Ids are tested for truth, not for being positive: a negative candidate
      id is looked up like any other. */
  lemma NegativeIdsCount(f: PositionForm, w: PositionWorld)
    requires f.candidateCampaignId < 0
    ensures ChooseSubject(f, w).Chosen? <==> w.candidateById(f.candidateCampaignId).Some?
  {
  }

  /** The overwrite rule for the two texts: from the edit form (position
      found by we_vote_id) the posted text always replaces the stored one,
      even when blank; from the new form a blank text keeps the stored one. */
  lemma ConditionalOverwrite(p: Position, f: PositionForm, s: Subject, organizationWeVoteId: string)
    ensures UpdatedPosition(p, f, s, organizationWeVoteId, false).moreInfoUrl == Some(f.moreInfoUrl)
    ensures UpdatedPosition(p, f, s, organizationWeVoteId, false).statementText == Some(f.statementText)
    ensures !Positive(f.moreInfoUrl) ==> UpdatedPosition(p, f, s, organizationWeVoteId, true).moreInfoUrl == p.moreInfoUrl
    ensures !Positive(f.statementText) ==> UpdatedPosition(p, f, s, organizationWeVoteId, true).statementText == p.statementText
    ensures UpdatedPosition(p, f, s, organizationWeVoteId, true).organizationId == p.organizationId
  {
  }

  /** Saving the same form twice changes nothing the second time. */
  lemma UpdateIdempotent(p: Position, f: PositionForm, s: Subject, organizationWeVoteId: string, fromNewForm: bool)
    ensures var once := UpdatedPosition(p, f, s, organizationWeVoteId, fromNewForm);
            UpdatedPosition(once, f, s, organizationWeVoteId, fromNewForm) == once
  {
  }

  /** Saving the form again on the position it just created, from the edit
      form, leaves that position as it is. */
  lemma UpdateAfterCreateKeepsIt(f: PositionForm, s: Subject, organizationWeVoteId: string)
    ensures UpdatedPosition(NewPosition(f, s, organizationWeVoteId), f, s, organizationWeVoteId, false)
            == NewPosition(f, s, organizationWeVoteId)
  {
  }

  /** Without the save button nothing is saved, whatever was found. */
  lemma NoSaveButtonSavesNothing(f: PositionForm, w: PositionWorld, foundByWeVoteId: bool,
                                 forCandidate: LookupSummary, forMeasure: LookupSummary)
    requires !f.saveButton
    ensures var r := PositionDecision(f, w, foundByWeVoteId, forCandidate, forMeasure);
            !r.Updated? && !r.Created?
  {
  }

  /** More than one stored position on the ballot item stops the save, but
      only when the position was not found by its we_vote_id first. */
  lemma MultipleStopsSave(f: PositionForm, w: PositionWorld, forCandidate: LookupSummary, forMeasure: LookupSummary)
    requires w.organizationById(f.organizationId).Some? && ChooseSubject(f, w).Chosen?
    requires f.candidateCampaignId != 0 && forCandidate.multiple
    ensures PositionDecision(f, w, false, forCandidate, forMeasure) == MultiplePositionsFound
    ensures Positive(f.positionWeVoteId) ==> PositionDecision(f, w, true, forCandidate, forMeasure) != MultiplePositionsFound
  {
  }

  /** With the organization found, a ballot item chosen and the save button
      pressed, the save goes ahead as follows: a position found by its
      we_vote_id is updated as from the edit form; otherwise the lookup by
      candidate (or, without a candidate id, by measure) decides: more than
      one stored position stops the save, one is updated as from the new
      form, none means a new position is created. */
  lemma SaveDecision(f: PositionForm, w: PositionWorld, foundByWeVoteId: bool,
                     forCandidate: LookupSummary, forMeasure: LookupSummary)
    requires w.organizationById(f.organizationId).Some? && ChooseSubject(f, w).Chosen? && f.saveButton
    ensures var r := PositionDecision(f, w, foundByWeVoteId, forCandidate, forMeasure);
            var l := if f.candidateCampaignId != 0 then forCandidate else forMeasure;
            (Positive(f.positionWeVoteId) && foundByWeVoteId ==> r == Updated(false))
            && (!(Positive(f.positionWeVoteId) && foundByWeVoteId) ==>
                  (r == MultiplePositionsFound <==> l.multiple)
                  && (r == Updated(true) <==> !l.multiple && l.found)
                  && (r == Created <==> !l.multiple && !l.found))
  {
  }
}
