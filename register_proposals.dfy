/** The RegisterProposals component: an authorized voter submits a proposal
    text while the workflow status is 1 (proposal registration). */
module RegisterProposalsComponent {
  import opened Outcomes
  import opened Patterns

  /** The text check of registerProposal: the regular expression, then the
      (redundant) comparison with "". Accepted texts are 10 to 100 characters
      from the proposal class. */
  predicate ProposalTextAccepted(text: string)
    ensures ProposalTextAccepted(text) <==>
      10 <= |text| <= 100 && forall i :: 0 <= i < |text| ==> ProposalChar(text[i])
  {
    TestIff(ProposalPattern, text);
    forall i | 0 <= i < |text| ensures InClass(text[i], ProposalClass) <==> ProposalChar(text[i]) {
      ProposalClassIff(text[i]);
    }
    !(!Test(ProposalPattern, text) || text == "")
  }

  /** The guard chain of registerProposal, in the order the handler tests
      them: busy, then the stage, then authorization, then the text. */
  function SubmitGuard(loader: bool, status: int, authorized: bool, text: string): (g: Guard)
    ensures g == Silent <==> loader || status != 1
    ensures g == Refuse(NotAVoter) <==> !loader && status == 1 && !authorized
    ensures g == Refuse(InvalidProposal) <==>
      !loader && status == 1 && authorized && !ProposalTextAccepted(text)
    ensures g == Proceed <==> !loader && status == 1 && authorized && ProposalTextAccepted(text)
  {
    if loader then Silent
    else if status != 1 then Silent
    else if !authorized then Refuse(NotAVoter)
    else if !ProposalTextAccepted(text) then Refuse(InvalidProposal)
    else Proceed
  }

  /** The toasts of checkIfVoter: a stage message on success at status 1 or 2,
      nothing otherwise (a failure is only logged). */
  function VoterCheckToasts(voterFound: bool, status: int): (r: seq<Toast>)
    ensures r != [] <==> voterFound && (status == 1 || status == 2)
    ensures |r| <= 1
    ensures r == [MayPropose] <==> voterFound && status == 1
    ensures voterFound && status == 2 ==> r == [ProposalsClosed]
  {
    if !voterFound then []
    else if status == 1 then [MayPropose]
    else if status == 2 then [ProposalsClosed]
    else []
  }

  // ----- render -----

  /** The proposal form (heading, input, button) is rendered. While it is
      shown, a submission never meets the "not a voter" refusal. */
  predicate FormShown(account: string, authorized: bool, status: int)
    ensures FormShown(account, authorized, status) ==>
      forall loader: bool, text: string :: SubmitGuard(loader, status, authorized, text) != Refuse(NotAVoter)
  {
    account != "" && authorized && 1 <= status <= 2
  }

  /** Input and button carry `disabled` exactly when a click would return
      silently, whatever the authorization and the text. */
  predicate FormDisabled(status: int, loader: bool)
    ensures FormDisabled(status, loader) <==>
      forall authorized: bool, text: string :: SubmitGuard(loader, status, authorized, text) == Silent
  {
    assert !(status != 1 || loader) ==> SubmitGuard(loader, status, false, "") == Refuse(NotAVoter);
    status != 1 || loader
  }

  /** The "not a voter" panel is rendered. With it shown, no submission can
      reach addProposal. */
  predicate NotVoterShown(account: string, authorized: bool)
    ensures NotVoterShown(account, authorized) ==>
      forall loader: bool, status: int, text: string :: SubmitGuard(loader, status, authorized, text) != Proceed
  {
    account != "" && !authorized
  }

  /** The form and the "not a voter" panel never appear together, and with an
      account and status 1 or 2 exactly one of them appears. */
  lemma PanelsExclusive(account: string, authorized: bool, status: int)
    ensures !(FormShown(account, authorized, status) && NotVoterShown(account, authorized))
    ensures account != "" && 1 <= status <= 2 ==>
      FormShown(account, authorized, status) || NotVoterShown(account, authorized)
  {
  }

  /** A click on an enabled, visible button passes every guard except the text
      check: what happens next depends on the text alone. */
  lemma EnabledButtonReachesTextCheck(account: string, authorized: bool, status: int,
                                      loader: bool, text: string)
    requires FormShown(account, authorized, status) && !FormDisabled(status, loader)
    ensures SubmitGuard(loader, status, authorized, text) ==
      if ProposalTextAccepted(text) then Proceed else Refuse(InvalidProposal)
  {
  }

  /** The component's useState fields. */
  class RegisterProposals {
    var proposal: string
    var authorized: bool
    var loader: bool

    constructor ()
      ensures proposal == "" && !authorized && !loader
    {
      proposal := "";
      authorized := false;
      loader := false;
    }

    /** The input's onChange. */
    method OnInput(text: string)
      modifies this`proposal
      ensures proposal == text
    {
      proposal := text;
    }

    /** checkIfVoter, run on mount and whenever account or status changes;
        `voterFound` says whether getVoter(account) resolved. */
    method CheckIfVoter(status: int, voterFound: bool) returns (toasts: seq<Toast>)
      modifies this`authorized
      ensures authorized == voterFound
      ensures toasts == VoterCheckToasts(voterFound, status)
    {
      toasts := [];
      if voterFound {
        authorized := true;
        if status == 1 {
          toasts := toasts + [MayPropose];
        } else if status == 2 {
          toasts := toasts + [ProposalsClosed];
        }
      } else {
        authorized := false;
      }
    }

    /** registerProposal(description); the button passes the `proposal`
        field. `outcome` is how addProposal ends. */
    method RegisterProposal(description: string, status: int, outcome: TxOutcome)
      returns (toasts: seq<Toast>, request: Option<Call>)
      modifies this`loader, this`proposal
      ensures authorized == old(authorized)
      ensures SubmitGuard(old(loader), status, authorized, description) != Proceed ==>
        && toasts == GuardToasts(SubmitGuard(old(loader), status, authorized, description))
        && request == None
        && loader == old(loader) && proposal == old(proposal)
      ensures SubmitGuard(old(loader), status, authorized, description) == Proceed ==>
        && toasts == TxToasts(outcome, RecordingProposal, ProposalRecorded, ProposalFailed)
        && request == Requested(outcome, AddProposal(description))
        && !loader && proposal == ""
    {
      toasts, request := [], None;
      if loader { return; }
      if status != 1 { return; }
      if !authorized {
        toasts := [NotAVoter];
        return;
      }
      if !ProposalTextAccepted(description) {
        toasts := [InvalidProposal];
        return;
      }
      // try
      loader := true;
      if outcome != NoSigner {
        request := Some(AddProposal(description));
      }
      if outcome == NoSigner || outcome == SendFailed {
        toasts := toasts + [ProposalFailed];
      } else {
        toasts := toasts + [RecordingProposal];
        toasts := toasts + [if outcome == Mined then ProposalRecorded else ProposalFailed];
      }
      // finally
      loader := false;
      proposal := "";
    }
  }

  /** A typed text is submitted as it is: the button passes the field to
      registerProposal, and an accepted text is what addProposal receives. */
  method SubmitTypedText(c: RegisterProposals, text: string, status: int, outcome: TxOutcome)
    returns (request: Option<Call>)
    requires !c.loader && c.authorized && status == 1 && ProposalTextAccepted(text)
    requires outcome != NoSigner
    modifies c
    ensures request == Some(AddProposal(text))
    ensures c.proposal == "" && !c.loader
  {
    c.OnInput(text);
    var toasts;
    toasts, request := c.RegisterProposal(c.proposal, status, outcome);
  }
}
