/** The voter stance API: the four save endpoints that turn a voter's support
    or opposition for a candidate or a measure on or off, and the endpoints
    that count the positions on a candidate or a measure that a voter
    follows. Each answers with a `{status, success[, count]}` envelope. */
module SupportOppose {
  import opened Wrappers
  import opened Text
  import opened Stances

  /** The JSON answer; `count` only in the counting endpoints. */
  datatype Envelope = Envelope(status: string, success: bool, count: Option<int>)

  /** The four toggles the save endpoints can request. */
  datatype Action = SupportOn | SupportOff | OpposeOn | OpposeOff

  datatype BallotKind = CandidateCampaign | ContestMeasure

  /** A toggle call made to the position manager. */
  datatype Toggle = Toggle(action: Action, kind: BallotKind, voterId: int, ballotItemId: int)

  /** What the position manager reports for a toggle. */
  datatype ManagerResult = ManagerResult(success: bool, status: string)

  /** The collaborators of the save endpoints, outside this model: the
      device-id validity check, the voter id linked to a device id (zero or
      less when there is none), and the toggles of the position manager. */
  datatype SaveBackend = SaveBackend(
    deviceIdValid: string -> bool,
    voterIdForDevice: string -> int,
    toggle: Toggle -> ManagerResult)

  const DeviceIdMissing: string := "VALID_VOTER_DEVICE_ID_MISSING"
  const SaveIdsMissing: string := "UNABLE_TO_SAVE-CANDIDATE_ID_AND_MEASURE_ID_MISSING"
  const RetrieveIdsMissing: string := "UNABLE_TO_RETRIEVE-CANDIDATE_ID_AND_MEASURE_ID_MISSING"

  /** The missing-voter status: the two "stop" endpoints end it with a space,
      the two "on" endpoints do not. */
  function VoterIdMissing(action: Action): (r: string)
    ensures r == "VALID_VOTER_ID_MISSING" || r == "VALID_VOTER_ID_MISSING "
    ensures (r == "VALID_VOTER_ID_MISSING ") <==> (action == SupportOff || action == OpposeOff)
  {
    match action
    case SupportOn => "VALID_VOTER_ID_MISSING"
    case OpposeOn => "VALID_VOTER_ID_MISSING"
    case SupportOff => "VALID_VOTER_ID_MISSING "
    case OpposeOff => "VALID_VOTER_ID_MISSING "
  }

  /** The prefix put before the manager's status. */
  function StatusPrefix(action: Action, kind: BallotKind): string {
    match (action, kind)
    case (SupportOn, CandidateCampaign) => "SUPPORTING_CANDIDATE "
    case (SupportOn, ContestMeasure) => "SUPPORTING_MEASURE "
    case (SupportOff, CandidateCampaign) => "STOP_SUPPORTING_CANDIDATE "
    case (SupportOff, ContestMeasure) => "STOP_SUPPORTING_MEASURE"
    case (OpposeOn, CandidateCampaign) => "OPPOSING_CANDIDATE "
    case (OpposeOn, ContestMeasure) => "OPPOSING_MEASURE "
    case (OpposeOff, CandidateCampaign) => "STOP_OPPOSING_CANDIDATE "
    case (OpposeOff, ContestMeasure) => "STOP_OPPOSING_MEASURE"
  }

  /** The shape the four save endpoints share: the device id is checked,
      then the voter id, then a positive candidate id wins over a positive
      measure id. The answer and the toggle made, if any. */
  function SaveProcess(action: Action, b: SaveBackend, voterDeviceId: string, candidateId: int, measureId: int)
    : (r: (Envelope, Option<Toggle>))
    ensures r.0.count == None
    ensures r.1.Some? <==> b.deviceIdValid(voterDeviceId) && b.voterIdForDevice(voterDeviceId) > 0
                           && (candidateId > 0 || measureId > 0)
    ensures r.1.Some? && candidateId > 0 ==>
      r.1.value == Toggle(action, CandidateCampaign, b.voterIdForDevice(voterDeviceId), candidateId)
    ensures r.1.Some? && !(candidateId > 0) ==>
      r.1.value == Toggle(action, ContestMeasure, b.voterIdForDevice(voterDeviceId), measureId)
    ensures r.1.Some? ==> r.0.success == b.toggle(r.1.value).success
                          && r.0.status == StatusPrefix(action, r.1.value.kind) + b.toggle(r.1.value).status
    ensures r.1.None? ==> !r.0.success
  {
    if !b.deviceIdValid(voterDeviceId) then (Envelope(DeviceIdMissing, false, None), None)
    else
      var voterId := b.voterIdForDevice(voterDeviceId);
      if !(voterId > 0) then (Envelope(VoterIdMissing(action), false, None), None)
      else if candidateId > 0 then
        var t := Toggle(action, CandidateCampaign, voterId, candidateId);
        var result := b.toggle(t);
        (Envelope(StatusPrefix(action, CandidateCampaign) + result.status, result.success, None), Some(t))
      else if measureId > 0 then
        var t := Toggle(action, ContestMeasure, voterId, measureId);
        var result := b.toggle(t);
        (Envelope(StatusPrefix(action, ContestMeasure) + result.status, result.success, None), Some(t))
      else (Envelope(SaveIdsMissing, false, None), None)
  }

  /** `voter_supporting_save` */
  function VoterSupportingSave(b: SaveBackend, voterDeviceId: string, candidateId: int, measureId: int)
    : (r: (Envelope, Option<Toggle>))
    ensures r.1.Some? ==> r.1.value.action == SupportOn
  {
    SaveProcess(SupportOn, b, voterDeviceId, candidateId, measureId)
  }

  /** `voter_stop_supporting_save` */
  function VoterStopSupportingSave(b: SaveBackend, voterDeviceId: string, candidateId: int, measureId: int)
    : (r: (Envelope, Option<Toggle>))
    ensures r.1.Some? ==> r.1.value.action == SupportOff
  {
    SaveProcess(SupportOff, b, voterDeviceId, candidateId, measureId)
  }

  /** `voter_opposing_save` */
  function VoterOpposingSave(b: SaveBackend, voterDeviceId: string, candidateId: int, measureId: int)
    : (r: (Envelope, Option<Toggle>))
    ensures r.1.Some? ==> r.1.value.action == OpposeOn
  {
    SaveProcess(OpposeOn, b, voterDeviceId, candidateId, measureId)
  }

  /** `voter_stop_opposing_save` */
  function VoterStopOpposingSave(b: SaveBackend, voterDeviceId: string, candidateId: int, measureId: int)
    : (r: (Envelope, Option<Toggle>))
    ensures r.1.Some? ==> r.1.value.action == OpposeOff
  {
    SaveProcess(OpposeOff, b, voterDeviceId, candidateId, measureId)
  }

  /** An invalid device id is answered before the voter is looked up, and
      nothing is toggled. */
  lemma InvalidDeviceIdTogglesNothing(action: Action, b: SaveBackend, b': SaveBackend,
                                      voterDeviceId: string, candidateId: int, measureId: int)
    requires !b.deviceIdValid(voterDeviceId) && b'.deviceIdValid == b.deviceIdValid
    ensures SaveProcess(action, b, voterDeviceId, candidateId, measureId)
            == (Envelope(DeviceIdMissing, false, None), None)
    ensures SaveProcess(action, b, voterDeviceId, candidateId, measureId)
            == SaveProcess(action, b', voterDeviceId, candidateId, measureId)
  {
  }

  /** A device with no voter is refused without a toggle, with a status that
      reads "VALID_VOTER_ID_MISSING" up to a trailing space. */
  lemma MissingVoterTogglesNothing(action: Action, b: SaveBackend, voterDeviceId: string, candidateId: int, measureId: int)
    requires b.deviceIdValid(voterDeviceId) && !(b.voterIdForDevice(voterDeviceId) > 0)
    ensures var (envelope, toggle) := SaveProcess(action, b, voterDeviceId, candidateId, measureId);
            toggle == None && !envelope.success && StartsWith(envelope.status, "VALID_VOTER_ID_MISSING")
  {
    var status := VoterIdMissing(action);
    assert StartsWith(status, "VALID_VOTER_ID_MISSING") by {
      assert status[..|"VALID_VOTER_ID_MISSING"|] == "VALID_VOTER_ID_MISSING";
    }
  }

  /** With both ids positive only the candidate toggle is made; the measure
      id plays no part. */
  lemma CandidateTakesPrecedence(action: Action, b: SaveBackend, voterDeviceId: string,
                                 candidateId: int, measureId: int, measureId': int)
    requires b.deviceIdValid(voterDeviceId) && b.voterIdForDevice(voterDeviceId) > 0
    requires candidateId > 0
    ensures SaveProcess(action, b, voterDeviceId, candidateId, measureId).1
            == Some(Toggle(action, CandidateCampaign, b.voterIdForDevice(voterDeviceId), candidateId))
    ensures SaveProcess(action, b, voterDeviceId, candidateId, measureId)
            == SaveProcess(action, b, voterDeviceId, candidateId, measureId')
  {
  }

  /** Without a positive id the request is refused. */
  lemma NoIdsRefused(action: Action, b: SaveBackend, voterDeviceId: string, candidateId: int, measureId: int)
    requires b.deviceIdValid(voterDeviceId) && b.voterIdForDevice(voterDeviceId) > 0
    requires !(candidateId > 0) && !(measureId > 0)
    ensures SaveProcess(action, b, voterDeviceId, candidateId, measureId) == (Envelope(SaveIdsMissing, false, None), None)
  {
  }

  /** The status of a dispatched save is the fixed prefix followed by the
      manager's status, which can be read back off it. */
  lemma ManagerStatusRecoverable(action: Action, b: SaveBackend, voterDeviceId: string, candidateId: int, measureId: int)
    requires SaveProcess(action, b, voterDeviceId, candidateId, measureId).1.Some?
    ensures var (envelope, toggle) := SaveProcess(action, b, voterDeviceId, candidateId, measureId);
            var prefix := StatusPrefix(action, toggle.value.kind);
            StartsWith(envelope.status, prefix)
            && envelope.status[|prefix|..] == b.toggle(toggle.value).status
  {
    var (envelope, toggle) := SaveProcess(action, b, voterDeviceId, candidateId, measureId);
    var prefix := StatusPrefix(action, toggle.value.kind);
    assert envelope.status[..|prefix|] == prefix;
  }

  /** Exactly the two "stop" prefixes for measures run into the manager's
      status without a space. */
  lemma StopMeasurePrefixesHaveNoSpace(action: Action, kind: BallotKind)
    ensures var p := StatusPrefix(action, kind);
            (p[|p| - 1] != ' ') <==> kind == ContestMeasure && (action == SupportOff || action == OpposeOff)
  {
  }

  // ---------------------------------------------------------------------
  // Counting

  /** The collaborators of the counting endpoints, outside this model: the
      positions on a candidate or a measure with a stance (the
      `retrieve_all_positions_for_*` calls, given the id they are passed),
      the organizations a voter follows, and the split of a position list
      into those the voter follows and those the voter does not. Positions
      are identified by their ids. */
  datatype CountBackend = CountBackend(
    deviceIdValid: string -> bool,
    voterIdForDevice: string -> int,
    positionsForCandidate: (int, string) -> seq<int>,
    positionsForMeasure: (int, string) -> seq<int>,
    organizationsFollowed: int -> seq<string>,
    followedByVoter: (int, seq<int>, seq<string>) -> seq<int>,
    notFollowedByVoter: (seq<int>, seq<string>) -> seq<int>)

  /** `positions_count_for_candidate_campaign` */
  function PositionsCountForCandidateCampaign(b: CountBackend, voterId: int, candidateId: int, stance: string,
                                              showFollowed: bool): (r: Envelope)
    ensures r.success && r.count.Some?
    ensures showFollowed ==> (r.status == "SUCCESSFUL_RETRIEVE_OF_POSITIONS_FOLLOWED"
      && r.count.value == |b.followedByVoter(voterId, b.positionsForCandidate(candidateId, stance),
                                             b.organizationsFollowed(voterId))|)
    ensures !showFollowed ==> (r.status == "SUCCESSFUL_RETRIEVE_OF_POSITIONS_NOT_FOLLOWED"
      && r.count.value == |b.notFollowedByVoter(b.positionsForCandidate(candidateId, stance),
                                                b.organizationsFollowed(voterId))|)
  {
    var all := b.positionsForCandidate(candidateId, stance);
    var followed := b.organizationsFollowed(voterId);
    if showFollowed then
      Envelope("SUCCESSFUL_RETRIEVE_OF_POSITIONS_FOLLOWED", true, Some(|b.followedByVoter(voterId, all, followed)|))
    else
      Envelope("SUCCESSFUL_RETRIEVE_OF_POSITIONS_NOT_FOLLOWED", true, Some(|b.notFollowedByVoter(all, followed)|))
  }

  /** `positions_count_for_contest_measure`: its id parameter is named for
      candidates, and its "followed" status lacks the `_FOLLOWED` suffix. */
  function PositionsCountForContestMeasure(b: CountBackend, voterId: int, candidateId: int, stance: string,
                                           showFollowed: bool): (r: Envelope)
    ensures r.success && r.count.Some?
    ensures showFollowed ==> (r.status == "SUCCESSFUL_RETRIEVE_OF_POSITIONS"
      && r.count.value == |b.followedByVoter(voterId, b.positionsForMeasure(candidateId, stance),
                                             b.organizationsFollowed(voterId))|)
    ensures !showFollowed ==> (r.status == "SUCCESSFUL_RETRIEVE_OF_POSITIONS_NOT_FOLLOWED"
      && r.count.value == |b.notFollowedByVoter(b.positionsForMeasure(candidateId, stance),
                                                b.organizationsFollowed(voterId))|)
  {
    var all := b.positionsForMeasure(candidateId, stance);
    var followed := b.organizationsFollowed(voterId);
    if showFollowed then
      Envelope("SUCCESSFUL_RETRIEVE_OF_POSITIONS", true, Some(|b.followedByVoter(voterId, all, followed)|))
    else
      Envelope("SUCCESSFUL_RETRIEVE_OF_POSITIONS_NOT_FOLLOWED", true, Some(|b.notFollowedByVoter(all, followed)|))
  }

  /** `positions_count_for_api`: the same checks as the save endpoints, then
      the count of followed positions on the candidate or, failing that, the
      measure. The measure branch passes the candidate id on. */
  function PositionsCountForApi(b: CountBackend, voterDeviceId: string, candidateId: int, measureId: int,
                                stance: string): (r: Envelope)
    ensures !b.deviceIdValid(voterDeviceId) ==> r == Envelope(DeviceIdMissing, false, None)
    ensures b.deviceIdValid(voterDeviceId) && !(b.voterIdForDevice(voterDeviceId) > 0)
            ==> r == Envelope("VALID_VOTER_ID_MISSING ", false, None)
    ensures r.success <==> b.deviceIdValid(voterDeviceId) && b.voterIdForDevice(voterDeviceId) > 0
                           && (candidateId > 0 || measureId > 0)
    ensures r.success <==> r.count.Some?
  {
    if !b.deviceIdValid(voterDeviceId) then Envelope(DeviceIdMissing, false, None)
    else
      var voterId := b.voterIdForDevice(voterDeviceId);
      if !(voterId > 0) then Envelope("VALID_VOTER_ID_MISSING ", false, None)
      else if candidateId > 0 then PositionsCountForCandidateCampaign(b, voterId, candidateId, stance, true)
      else if measureId > 0 then PositionsCountForContestMeasure(b, voterId, candidateId, stance, true)
      else Envelope(RetrieveIdsMissing, false, None)
  }

  /** `support_count_for_api` */
  function SupportCountForApi(b: CountBackend, voterDeviceId: string, candidateId: int, measureId: int): (r: Envelope)
    ensures r.success <==> b.deviceIdValid(voterDeviceId) && b.voterIdForDevice(voterDeviceId) > 0
                           && (candidateId > 0 || measureId > 0)
    ensures r.success && candidateId > 0 ==>
      var voterId := b.voterIdForDevice(voterDeviceId);
      r.count == Some(|b.followedByVoter(voterId, b.positionsForCandidate(candidateId, SUPPORT),
                                         b.organizationsFollowed(voterId))|)
    ensures r.success && !(candidateId > 0) ==>
      var voterId := b.voterIdForDevice(voterDeviceId);
      r.count == Some(|b.followedByVoter(voterId, b.positionsForMeasure(candidateId, SUPPORT),
                                         b.organizationsFollowed(voterId))|)
  {
    PositionsCountForApi(b, voterDeviceId, candidateId, measureId, SUPPORT)
  }

  /** `oppose_count_for_api` */
  function OpposeCountForApi(b: CountBackend, voterDeviceId: string, candidateId: int, measureId: int): (r: Envelope)
    ensures r.success <==> b.deviceIdValid(voterDeviceId) && b.voterIdForDevice(voterDeviceId) > 0
                           && (candidateId > 0 || measureId > 0)
    ensures r.success && candidateId > 0 ==>
      var voterId := b.voterIdForDevice(voterDeviceId);
      r.count == Some(|b.followedByVoter(voterId, b.positionsForCandidate(candidateId, OPPOSE),
                                         b.organizationsFollowed(voterId))|)
    ensures r.success && !(candidateId > 0) ==>
      var voterId := b.voterIdForDevice(voterDeviceId);
      r.count == Some(|b.followedByVoter(voterId, b.positionsForMeasure(candidateId, OPPOSE),
                                         b.organizationsFollowed(voterId))|)
  {
    PositionsCountForApi(b, voterDeviceId, candidateId, measureId, OPPOSE)
  }

  /** The two counting endpoints differ only in the stance they ask for:
      where the position lists for SUPPORT and OPPOSE agree, so do their
      answers. */
  lemma SupportAndOpposeDifferOnlyInStance(b: CountBackend, voterDeviceId: string, candidateId: int, measureId: int)
    requires forall id :: b.positionsForCandidate(id, SUPPORT) == b.positionsForCandidate(id, OPPOSE)
    requires forall id :: b.positionsForMeasure(id, SUPPORT) == b.positionsForMeasure(id, OPPOSE)
    ensures SupportCountForApi(b, voterDeviceId, candidateId, measureId)
            == OpposeCountForApi(b, voterDeviceId, candidateId, measureId)
  {
  }

  /** A successful count for a candidate is the number of followed positions
      on that candidate with the stance asked for. */
  lemma CandidateCountIsFollowedPositions(b: CountBackend, voterDeviceId: string, candidateId: int, measureId: int)
    requires b.deviceIdValid(voterDeviceId) && b.voterIdForDevice(voterDeviceId) > 0 && candidateId > 0
    ensures var voterId := b.voterIdForDevice(voterDeviceId);
            SupportCountForApi(b, voterDeviceId, candidateId, measureId)
            == Envelope("SUCCESSFUL_RETRIEVE_OF_POSITIONS_FOLLOWED", true,
                        Some(|b.followedByVoter(voterId, b.positionsForCandidate(candidateId, SUPPORT),
                                                b.organizationsFollowed(voterId))|))
  {
  }

  /** The measure branch never consults the measure id: the positions
      counted are those retrieved for the (non-positive) candidate id, so any
      two positive measure ids get the same answer. */
  lemma MeasureIdNeverConsulted(b: CountBackend, voterDeviceId: string, candidateId: int,
                                measureId: int, measureId': int, stance: string)
    requires !(candidateId > 0) && measureId > 0 && measureId' > 0
    ensures PositionsCountForApi(b, voterDeviceId, candidateId, measureId, stance)
            == PositionsCountForApi(b, voterDeviceId, candidateId, measureId', stance)
    ensures b.deviceIdValid(voterDeviceId) && b.voterIdForDevice(voterDeviceId) > 0 ==>
      var voterId := b.voterIdForDevice(voterDeviceId);
      PositionsCountForApi(b, voterDeviceId, candidateId, measureId, stance).count
      == Some(|b.followedByVoter(voterId, b.positionsForMeasure(candidateId, stance), b.organizationsFollowed(voterId))|)
  {
  }

  /** Without a positive id the count is refused with its own status. */
  lemma CountWithoutIdsRefused(b: CountBackend, voterDeviceId: string, candidateId: int, measureId: int, stance: string)
    requires b.deviceIdValid(voterDeviceId) && b.voterIdForDevice(voterDeviceId) > 0
    requires !(candidateId > 0) && !(measureId > 0)
    ensures PositionsCountForApi(b, voterDeviceId, candidateId, measureId, stance) == Envelope(RetrieveIdsMissing, false, None)
  {
  }
}
