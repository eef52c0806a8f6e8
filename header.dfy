/** The Header page: connection state, the owner's "next stage" button that
    advances the workflow, and the lookup of any address's voter record. */
module HeaderPage {
  import opened Outcomes
  import opened Patterns

  /** WFSarray: the label of each workflow status 0..6. */
  const StageLabels: seq<string> := [
    "Enregistrement des votants",
    "Enregistrement des propositions",
    "Terminer l'enregistrement des propositions",
    "Début de la session de vote",
    "Session de vote terminée",
    "Décompte des votes",
    "Session terminée"
  ]

  /** WFSarray[status]; None stands for JavaScript's undefined outside 0..6. */
  function StageLabel(status: int): (r: Option<string>)
    ensures r.Some? <==> 0 <= status <= 6
    ensures status == 6 ==> r == Some("Session terminée")
  {
    if 0 <= status < |StageLabels| then Some(StageLabels[status]) else None
  }

  // ----- the workflow-advance index -----

  /** The index check of setWorkflowStatus: `^\d+$` on String(index), then not
      above 5, then not below 1. */
  predicate IndexAccepted(index: int)
    ensures IndexAccepted(index) <==> 1 <= index <= 5
  {
    IndexPatternIff(IntString(index));
    !(!Test(IndexPattern, IntString(index)) || index > 5 || index < 1)
  }

  /** The if-chain choosing the contract operation for an accepted index. */
  function AdvanceOpFor(index: int): (op: AdvanceOp)
    requires 1 <= index <= 5
    ensures SelectingIndex(op) == index
  {
    if index == 1 then StartProposalsRegistering
    else if index == 2 then EndProposalsRegistering
    else if index == 3 then StartVotingSession
    else if index == 4 then EndVotingSession
    else TallyVotes
  }

  /** The index that selects an operation: the stage it opens. */
  function SelectingIndex(op: AdvanceOp): (i: int)
    ensures 1 <= i <= 5
  {
    match op
    case StartProposalsRegistering => 1
    case EndProposalsRegistering => 2
    case StartVotingSession => 3
    case EndVotingSession => 4
    case TallyVotes => 5
  }

  /** Each accepted index selects one operation and each operation is
      selected by exactly one index. */
  lemma AdvanceOpBijection(index: int, op: AdvanceOp)
    ensures 1 <= index <= 5 ==> SelectingIndex(AdvanceOpFor(index)) == index
    ensures AdvanceOpFor(SelectingIndex(op)) == op
    ensures 1 <= index <= 5 ==> (AdvanceOpFor(index) == op <==> SelectingIndex(op) == index)
  {
  }

  /** The operation setWorkflowStatus(index) requests, if any. */
  function AdvanceRequest(loader: bool, index: int): (r: Option<AdvanceOp>)
    ensures r.Some? <==> !loader && 1 <= index <= 5
    ensures r.Some? ==> SelectingIndex(r.value) == index
  {
    if loader then None
    else if !IndexAccepted(index) then None
    else Some(AdvanceOpFor(index))
  }

  /** The owner button, labelled WFSarray[status + 1], asks for status + 1:
      from 0 to 4 it requests the operation its label names; from 5 or 6 it
      requests nothing. */
  lemma OwnerButtonRequestsNextStage(status: int)
    requires 0 <= status <= 6
    ensures AdvanceRequest(false, status + 1).Some? <==> status <= 4
    ensures status == 0 ==>
      AdvanceRequest(false, status + 1) == Some(StartProposalsRegistering) && StageLabel(status + 1) == Some("Enregistrement des propositions")
    ensures status == 1 ==>
      AdvanceRequest(false, status + 1) == Some(EndProposalsRegistering) && StageLabel(status + 1) == Some("Terminer l'enregistrement des propositions")
    ensures status == 2 ==>
      AdvanceRequest(false, status + 1) == Some(StartVotingSession) && StageLabel(status + 1) == Some("Début de la session de vote")
    ensures status == 3 ==>
      AdvanceRequest(false, status + 1) == Some(EndVotingSession) && StageLabel(status + 1) == Some("Session de vote terminée")
    ensures status == 4 ==>
      AdvanceRequest(false, status + 1) == Some(TallyVotes) && StageLabel(status + 1) == Some("Décompte des votes")
    ensures status == 5 ==> StageLabel(status + 1) == Some("Session terminée")
  {
  }

  // ----- the voter lookup -----

  const NotVoterText: string := "Vous n'êtes pas votant"
  const InvalidAddressText: string := "Adresse invalide"

  /** What getVoterInfo does with the current input. */
  datatype LookupStep = Ignore | ClearSentinel | MarkInvalid | Query(address: string)

  function LookupStepFor(loader: bool, voter: string, isAddress: string -> bool): (r: LookupStep)
    ensures r == Ignore <==> loader || voter == ""
    ensures r == ClearSentinel <==> !loader && voter == NotVoterText
    ensures r.Query? <==> !loader && voter != "" && voter != NotVoterText && isAddress(voter)
    ensures r.Query? ==> r.address == voter
  {
    if loader then Ignore
    else if voter == "" then Ignore
    else if voter == NotVoterText then ClearSentinel
    else if !isAddress(voter) then MarkInvalid
    else Query(voter)
  }

  /** After a failed lookup, one more click empties the input and the click
      after that does nothing. */
  lemma FailedLookupClearsOnNextClicks(isAddress: string -> bool)
    ensures LookupStepFor(false, NotVoterText, isAddress) == ClearSentinel
    ensures LookupStepFor(false, "", isAddress) == Ignore
  {
  }

  /** The outcome of getVoter(voter). */
  datatype LookupOutcome = Found(info: VoterInfo) | LookupFailed

  // ----- render -----

  /** The three lines of a shown voter record. */
  datatype VoterInfoLines = VoterInfoLines(registered: bool, voted: bool, votedProposal: Option<nat>)

  /** The record block: rendered with an account and a non-empty voterInfos;
      the voted proposal id is shown only when hasVoted, "aucune" otherwise. */
  function VoterInfoView(account: string, infos: Option<VoterInfo>): (r: Option<VoterInfoLines>)
    ensures r.Some? <==> account != "" && infos.Some?
    ensures r.Some? ==>
      && r.value.registered == infos.value.isRegistered
      && r.value.voted == infos.value.hasVoted
      && (r.value.votedProposal.Some? <==> infos.value.hasVoted)
      && (r.value.votedProposal.Some? ==> r.value.votedProposal.value == infos.value.votedProposalId)
  {
    if account == "" then None
    else match infos
      case None => None
      case Some(v) =>
        Some(VoterInfoLines(v.isRegistered, v.hasVoted,
                            if v.hasVoted then Some(v.votedProposalId) else None))
  }

  /** The administrator block with the "Etape suivante" button: never shown
      before the owner is known, nor beside the unlock prompt. */
  predicate AdminPanelShown(account: string, owner: string)
    ensures AdminPanelShown(account, owner) ==> owner != ""
    ensures AdminPanelShown(account, owner) ==>
      forall walletConnected: bool :: !UnlockPromptShown(account, walletConnected)
  {
    account != "" && account == owner
  }

  /** "Actuellement : WFSarray[workflowStatus]": never beside the unlock
      prompt. */
  predicate CurrentStageShown(account: string, walletConnected: bool)
    ensures CurrentStageShown(account, walletConnected) ==> !UnlockPromptShown(account, walletConnected)
  {
    account != "" && walletConnected
  }

  /** "Veuillez déverrouiller MetaMask": while it is shown, no voter record is
      rendered, whatever voterInfos holds. */
  predicate UnlockPromptShown(account: string, walletConnected: bool)
    ensures UnlockPromptShown(account, walletConnected) ==>
      forall infos: Option<VoterInfo> :: VoterInfoView(account, infos) == None
  {
    account == "" && walletConnected
  }

  /** "Connecter MetaMask": shown exactly when, whatever the account, neither
      the current stage nor the unlock prompt is. */
  predicate ConnectButtonShown(walletConnected: bool)
    ensures ConnectButtonShown(walletConnected) <==>
      forall account: string :: !CurrentStageShown(account, walletConnected) && !UnlockPromptShown(account, walletConnected)
  {
    assert walletConnected ==> UnlockPromptShown("", walletConnected);
    !walletConnected
  }

  /** Exactly one of the current stage, the unlock prompt and the connect
      button is rendered. */
  lemma ExactlyOneConnectionLine(account: string, walletConnected: bool)
    ensures CurrentStageShown(account, walletConnected) || UnlockPromptShown(account, walletConnected)
      || ConnectButtonShown(walletConnected)
    ensures !(CurrentStageShown(account, walletConnected) && UnlockPromptShown(account, walletConnected))
    ensures !(CurrentStageShown(account, walletConnected) && ConnectButtonShown(walletConnected))
    ensures !(UnlockPromptShown(account, walletConnected) && ConnectButtonShown(walletConnected))
  {
  }

  /** The page's useState fields. `voterInfos` is None for the empty array and
      Some for the tuple getVoter returns. */
  class Header {
    var voter: string
    var voterInfos: Option<VoterInfo>
    var loader: bool

    constructor ()
      ensures voter == "" && voterInfos == None && !loader
    {
      voter := "";
      voterInfos := None;
      loader := false;
    }

    /** setWorkflowStatus(index); `outcome` is how the advance call ends.
        `reread` says whether getWorkFlowStatus is called afterwards. */
    method SetWorkflowStatus(index: int, outcome: TxOutcome) returns (request: Option<Call>, reread: bool)
      modifies this`loader
      ensures AdvanceRequest(old(loader), index).None? ==>
        request == None && !reread && loader == old(loader)
      ensures AdvanceRequest(old(loader), index).Some? ==>
        && request == Requested(outcome, Advance(AdvanceRequest(old(loader), index).value))
        && reread == (outcome == Mined)
        && !loader
    {
      request, reread := None, false;
      if loader { return; }
      if !IndexAccepted(index) { return; }
      // try
      loader := true;
      var op := AdvanceOpFor(index);
      if outcome != NoSigner {
        request := Some(Advance(op));
      }
      if outcome == Mined {
        reread := true;
      }
      // finally
      loader := false;
    }

    /** The owner's "Etape suivante" button. */
    method NextStage(status: int, outcome: TxOutcome) returns (request: Option<Call>, reread: bool)
      modifies this`loader
      ensures request.Some? ==> 0 <= status <= 4 && request == Some(Advance(AdvanceOpFor(status + 1)))
      ensures !old(loader) && 0 <= status <= 4 && outcome != NoSigner ==> request.Some?
      ensures !old(loader) ==> !loader
      ensures old(loader) ==> loader && request == None
    {
      request, reread := SetWorkflowStatus(status + 1, outcome);
    }

    /** getVoterInfo; `isAddress` is ethers.utils.isAddress, `outcome` how
        getVoter(voter) ends. Returns the address looked up, if any. */
    method GetVoterInfo(isAddress: string -> bool, outcome: LookupOutcome) returns (queried: Option<string>)
      modifies this`voter, this`voterInfos
      ensures loader == old(loader)
      ensures match LookupStepFor(loader, old(voter), isAddress)
        case Ignore => queried == None && voter == old(voter) && voterInfos == old(voterInfos)
        case ClearSentinel => queried == None && voter == "" && voterInfos == old(voterInfos)
        case MarkInvalid => queried == None && voter == InvalidAddressText && voterInfos == old(voterInfos)
        case Query(a) =>
          && queried == Some(a)
          && (outcome.Found? ==> voterInfos == Some(outcome.info) && voter == old(voter))
          && (outcome.LookupFailed? ==> voter == NotVoterText && voterInfos == old(voterInfos))
    {
      queried := None;
      if loader { return; }
      if voter == "" { return; }
      if voter == NotVoterText {
        voter := "";
        return;
      }
      if !isAddress(voter) {
        voter := InvalidAddressText;
        return;
      }
      // try
      queried := Some(voter);
      match outcome {
        case Found(info) =>
          voterInfos := Some(info);
        case LookupFailed =>
          // catch
          voter := NotVoterText;
      }
    }

    /** The effect on `account`. */
    method OnAccountChange(account: string)
      modifies this`voter, this`voterInfos
      ensures account == "" ==> voter == "" && voterInfos == None
      ensures account != "" ==> voter == old(voter) && voterInfos == old(voterInfos)
    {
      if account == "" {
        voterInfos := None;
        voter := "";
      }
    }

    /** The input's onChange: a shown record disappears and the text is kept. */
    method OnInput(text: string)
      modifies this`voter, this`voterInfos
      ensures voter == text && voterInfos == None
    {
      if voterInfos.Some? {
        voterInfos := None;
      }
      voter := text;
    }
  }
}
