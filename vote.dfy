/** The Vote component: lists the proposals, lets an authorized voter cast one
    vote while the workflow status is 3 (voting open), and shows the winning
    proposal once the status reaches 5 (votes tallied). */
module VoteComponent {
  import opened Outcomes
  import opened Patterns

  // ----- the selection check -----

  /** The selection check of vote: `^[0-9]{1,3}$`, not "", not below 1, not
      above the number of proposals. The comparisons read the string as a
      number, and they are only reached by digit strings. */
  predicate SelectionAccepted(selection: string, count: nat)
    ensures SelectionAccepted(selection, count) <==>
      1 <= |selection| <= 3 && AllDigits(selection) && 1 <= DigitsValue(selection) <= count
  {
    SelectionPatternIff(selection);
    if !Test(SelectionPattern, selection) || selection == "" then false
    else !(DigitsValue(selection) < 1 || DigitsValue(selection) > count)
  }

  /** Every proposal number up to 999 can be selected by typing its decimal
      rendering, and that selection denotes the number itself. */
  lemma SelectionComplete(n: nat, count: nat)
    requires 1 <= n <= count && n < 1000
    ensures SelectionAccepted(DecimalString(n), count)
    ensures DigitsValue(DecimalString(n)) == n
  {
    DecimalRoundTrip(n);
    DecimalLength(n, 3);
    assert Pow10(3) == 1000;
  }

  /** Three digits at most: a proposal numbered 1000 or more is never
      selectable, however many proposals there are. */
  lemma SelectionBelow1000(selection: string, count: nat)
    requires SelectionAccepted(selection, count)
    ensures DigitsValue(selection) < 1000
  {
    assert Pow10(1) == 10 && Pow10(2) == 100 && Pow10(3) == 1000;
  }

  /** The initial selection (the number 0, which reads as "0") and the empty
      input are both refused. */
  lemma InitialAndEmptySelectionRefused(count: nat)
    ensures !SelectionAccepted("0", count)
    ensures !SelectionAccepted("", count)
  {
    assert "0"[..0] == "";
    assert DigitsValue("0") == 0;
  }

  /** A sign, a decimal point or an exponent anywhere refuses the selection. */
  lemma NonDigitSelectionRefused(selection: string, count: nat, i: nat)
    requires i < |selection| && selection[i] in "+-.eE"
    ensures !SelectionAccepted(selection, count)
  {
    assert !IsAsciiDigit(selection[i]);
  }

  // ----- the vote guard chain -----

  /** The guard chain of vote, in the order the handler tests them: busy, stage,
      authorization, an empty list, then the selection. */
  function VoteGuard(loaderVote: bool, loader: bool, status: int, authorized: bool,
                     count: nat, selection: string): (g: Guard)
    ensures g == Silent <==> loaderVote || loader || status != 3
    ensures g == Refuse(NotAVoter) <==> !loaderVote && !loader && status == 3 && !authorized
    ensures g == Refuse(NoProposals) <==>
      !loaderVote && !loader && status == 3 && authorized && count == 0
    ensures g == Refuse(InvalidProposal) <==>
      !loaderVote && !loader && status == 3 && authorized && count > 0
      && !SelectionAccepted(selection, count)
    ensures g == Proceed <==>
      !loaderVote && !loader && status == 3 && authorized && SelectionAccepted(selection, count)
  {
    if loaderVote || loader then Silent
    else if status != 3 then Silent
    else if !authorized then Refuse(NotAVoter)
    else if count == 0 then Refuse(NoProposals)
    else if !SelectionAccepted(selection, count) then Refuse(InvalidProposal)
    else Proceed
  }

  /** The toasts of checkIfVoter: a stage message on success at status 3, 4
      or 5; the "not a voter" toast on failure. */
  function VoterCheckToasts(voterFound: bool, status: int): (r: seq<Toast>)
    ensures |r| <= 1
    ensures r == [NotAVoter] <==> !voterFound
    ensures r == [] <==> voterFound && !(3 <= status <= 5)
    ensures r == [VotesTallied] <==> voterFound && status == 5
    ensures voterFound && status == 3 ==> r == [VotingOpen]
    ensures voterFound && status == 4 ==> r == [VotingClosed]
  {
    if !voterFound then [NotAVoter]
    else if status == 3 then [VotingOpen]
    else if status == 4 then [VotingClosed]
    else if status == 5 then [VotesTallied]
    else []
  }

  // ----- render -----

  /** An entry of the numbered proposal list. */
  datatype ListItem =
    | EmptyNotice                                              // "Il n'y a pas de propositions"
    | Entry(key: nat, description: string, votes: Option<nat>)

  /** How many entries of the fetched list are present (getOneProposal yields
      undefined for an entry it failed to read). */
  function PresentCount(ps: seq<Option<ProposalInfo>>): (n: nat)
    ensures n <= |ps|
  {
    if ps == [] then 0 else (if ps[0].Some? then 1 else 0) + PresentCount(ps[1..])
  }

  /** proposals.map with falsy entries skipped; `offset` is the index of
      ps[0] in the whole list, used as the item key. */
  function Entries(ps: seq<Option<ProposalInfo>>, showVotes: bool, offset: nat): (r: seq<ListItem>)
    ensures |r| == PresentCount(ps)
    ensures forall k :: 0 <= k < |r| ==>
      && r[k].Entry?
      && offset <= r[k].key < offset + |ps|
      && ps[r[k].key - offset].Some?
      && r[k].description == ps[r[k].key - offset].value.description
      && r[k].votes == (if showVotes then Some(ps[r[k].key - offset].value.voteCount) else None)
    ensures forall k, l :: 0 <= k < l < |r| ==> r[k].key < r[l].key
    ensures (forall j :: 0 <= j < |ps| ==> ps[j].Some?) ==>
      forall k :: 0 <= k < |r| ==> r[k].key == offset + k
    decreases |ps|
  {
    if ps == [] then []
    else
      var rest := Entries(ps[1..], showVotes, offset + 1);
      match ps[0]
      case None => rest
      case Some(p) =>
        [Entry(offset, p.description, if showVotes then Some(p.voteCount) else None)] + rest
  }

  /** displayProposals: nothing when unauthorized; the empty notice for an
      empty list unless loading; otherwise one entry per present proposal,
      with its vote count exactly when the status is 5. */
  function DisplayProposals(authorized: bool, loader: bool, status: int,
                            ps: seq<Option<ProposalInfo>>): (r: seq<ListItem>)
    ensures !authorized ==> r == []
    ensures authorized && ps == [] ==> r == (if loader then [] else [EmptyNotice])
    ensures authorized && ps != [] ==>
      && |r| == PresentCount(ps)
      && forall k :: 0 <= k < |r| ==> r[k].Entry? && (r[k].votes.Some? <==> status == 5)
    ensures authorized && ps != [] ==> r == Entries(ps, status == 5, 0)
  {
    if !authorized then []
    else if |ps| == 0 then (if !loader then [EmptyNotice] else [])
    else Entries(ps, status == 5, 0)
  }

  /** With no entry missing, the n-th numbered item of the list is proposal
      n - 1 of the fetched list. */
  lemma ListNumberingMatchesIndex(authorized: bool, loader: bool, status: int,
                                  ps: seq<Option<ProposalInfo>>, n: nat)
    requires authorized && 1 <= n <= |ps|
    requires forall j :: 0 <= j < |ps| ==> ps[j].Some?
    ensures |DisplayProposals(authorized, loader, status, ps)| == |ps|
    ensures DisplayProposals(authorized, loader, status, ps)[n - 1].key == n - 1
    ensures DisplayProposals(authorized, loader, status, ps)[n - 1].description ==
      ps[n - 1].value.description
  {
    AllPresentCount(ps);
  }

  lemma {:induction false} AllPresentCount(ps: seq<Option<ProposalInfo>>)
    requires forall j :: 0 <= j < |ps| ==> ps[j].Some?
    ensures PresentCount(ps) == |ps|
    decreases |ps|
  {
    if ps != [] {
      AllPresentCount(ps[1..]);
    }
  }

  /** The voting panel (input and button), stages 3 and 4. While it is
      shown, a click never meets the "not a voter" refusal. */
  predicate VotingPanelShown(account: string, authorized: bool, status: int)
    ensures VotingPanelShown(account, authorized, status) ==>
      forall loaderVote: bool, loader: bool, count: nat, selection: string ::
        VoteGuard(loaderVote, loader, status, authorized, count, selection) != Refuse(NotAVoter)
  {
    account != "" && authorized && 3 <= status <= 4
  }

  /** The result panel, stage 5 and after. No vote can be cast while it is
      shown: the handler returns silently. */
  predicate ResultPanelShown(account: string, authorized: bool, status: int)
    ensures ResultPanelShown(account, authorized, status) ==>
      forall loaderVote: bool, loader: bool, count: nat, selection: string ::
        VoteGuard(loaderVote, loader, status, authorized, count, selection) == Silent
  {
    account != "" && authorized && status >= 5
  }

  /** The "not a voter" panel. With it shown, no click can lead to a vote. */
  predicate NotVoterPanelShown(account: string, authorized: bool)
    ensures NotVoterPanelShown(account, authorized) ==>
      forall loaderVote: bool, loader: bool, status: int, count: nat, selection: string ::
        VoteGuard(loaderVote, loader, status, authorized, count, selection) != Proceed
  {
    account != "" && !authorized
  }

  /** What the voting panel holds. The form's heading and button caption
      invite a vote when `votingOpen`, and say the session is over otherwise. */
  datatype VotingContent = Spinner | NoProposalsHeading | VoteForm(votingOpen: bool)

  function VotingPanelContent(loader: bool, count: nat, status: int): (c: VotingContent)
    ensures c.VoteForm? <==> !loader && count > 0
    ensures c == Spinner <==> loader
    ensures c.VoteForm? ==> (c.votingOpen <==> status == 3)
  {
    if loader then Spinner
    else if count > 0 then VoteForm(status == 3)
    else NoProposalsHeading
  }

  /** The vote button carries `disabled` exactly when a click would return
      silently, whatever the authorization, the list and the selection. */
  predicate VoteButtonDisabled(status: int, loaderVote: bool, loader: bool)
    ensures VoteButtonDisabled(status, loaderVote, loader) <==>
      forall authorized: bool, count: nat, selection: string ::
        VoteGuard(loaderVote, loader, status, authorized, count, selection) == Silent
  {
    assert !(status != 3 || loaderVote || loader) ==>
      VoteGuard(loaderVote, loader, status, false, 0, "") == Refuse(NotAVoter);
    status != 3 || loaderVote || loader
  }

  /** At most one of the three panels is rendered, and with an account exactly
      one is when the status is 3 or more or the account is unauthorized. */
  lemma VotePanelsExclusive(account: string, authorized: bool, status: int)
    ensures !(VotingPanelShown(account, authorized, status) && ResultPanelShown(account, authorized, status))
    ensures !(VotingPanelShown(account, authorized, status) && NotVoterPanelShown(account, authorized))
    ensures !(ResultPanelShown(account, authorized, status) && NotVoterPanelShown(account, authorized))
    ensures account != "" && (status >= 3 || !authorized) ==>
      || VotingPanelShown(account, authorized, status)
      || ResultPanelShown(account, authorized, status)
      || NotVoterPanelShown(account, authorized)
  {
  }

  /** A click on the enabled button of the rendered form passes every guard
      except the selection check. */
  lemma EnabledVoteButtonReachesSelection(account: string, authorized: bool, status: int,
                                          loader: bool, loaderVote: bool, count: nat,
                                          selection: string)
    requires VotingPanelShown(account, authorized, status)
    requires VotingPanelContent(loader, count, status).VoteForm?
    requires !VoteButtonDisabled(status, loaderVote, loader)
    ensures VoteGuard(loaderVote, loader, status, authorized, count, selection) ==
      if SelectionAccepted(selection, count) then Proceed else Refuse(InvalidProposal)
  {
  }

  /** The text of the winning-proposal line. */
  datatype Summary =
    | Winner(index: nat, info: Option<ProposalInfo>)  // "Numéro i - description - avec n votes"
    | NoneRegistered                                  // "Aucune proposition n'a été enregistrée"
    | NoneVoted                                       // "Aucune proposition n'a été votée"

  /** `winningIndex > 0 ? … : proposals.length === 0 ? … : …`; a null index
      compares as not greater than 0. */
  function WinningSummary(winningIndex: Option<nat>, winning: Option<ProposalInfo>,
                          count: nat): (r: Summary)
    ensures r.Winner? <==> winningIndex.Some? && winningIndex.value > 0
    ensures r.Winner? ==> r.index == winningIndex.value && r.info == winning
    ensures r == NoneRegistered <==> !(winningIndex.Some? && winningIndex.value > 0) && count == 0
    ensures r == NoneVoted <==> !(winningIndex.Some? && winningIndex.value > 0) && count > 0
  {
    if winningIndex.Some? && winningIndex.value > 0 then Winner(winningIndex.value, winning)
    else if count == 0 then NoneRegistered
    else NoneVoted
  }

  /** What the result panel holds: a spinner while loading, the winning line
      otherwise. */
  datatype ResultContent = ResultSpinner | WinningLine(summary: Summary)

  function ResultPanelContent(loader: bool, winningIndex: Option<nat>, winning: Option<ProposalInfo>,
                              count: nat): (c: ResultContent)
    ensures c == ResultSpinner <==> loader
    ensures !loader ==> c.summary.Winner? == (winningIndex.Some? && winningIndex.value > 0)
    ensures !loader ==> c == WinningLine(WinningSummary(winningIndex, winning, count))
  {
    if loader then ResultSpinner else WinningLine(WinningSummary(winningIndex, winning, count))
  }

  /** The outcome of getWinningProposalID followed by getOneProposal; the
      second yields None when it failed (its error is caught and logged). */
  datatype WinnerRead = WinnerRead(id: nat, info: Option<ProposalInfo>)

  /** The component's useState fields. `proposal` holds what the number input
      last reported; its initial value, the number 0, behaves in every check
      exactly as the string "0". */
  class Vote {
    var proposals: seq<Option<ProposalInfo>>
    var proposal: string
    var authorized: bool
    var winning: Option<ProposalInfo>
    var winningIndex: Option<nat>
    var loader: bool
    var loaderVote: bool

    constructor ()
      ensures proposals == [] && proposal == "0" && !authorized
      ensures winning == None && winningIndex == None && !loader && !loaderVote
    {
      proposals := [];
      proposal := "0";
      authorized := false;
      winning := None;
      winningIndex := None;
      loader := false;
      loaderVote := false;
    }

    /** The number input's onChange. */
    method OnSelect(text: string)
      modifies this`proposal
      ensures proposal == text
    {
      proposal := text;
    }

    /** vote; `outcome` is how setVote ends. Only `loaderVote` can change. */
    method CastVote(status: int, outcome: TxOutcome) returns (toasts: seq<Toast>, request: Option<Call>)
      modifies this`loaderVote
      ensures VoteGuard(old(loaderVote), loader, status, authorized, |proposals|, proposal) != Proceed ==>
        && toasts == GuardToasts(VoteGuard(old(loaderVote), loader, status, authorized, |proposals|, proposal))
        && request == None
        && loaderVote == old(loaderVote)
      ensures VoteGuard(old(loaderVote), loader, status, authorized, |proposals|, proposal) == Proceed ==>
        && toasts == TxToasts(outcome, RecordingVote, VoteRecorded, VoteFailed)
        && request == Requested(outcome, SetVote(DigitsValue(proposal)))
        && 1 <= DigitsValue(proposal) <= |proposals|
        && !loaderVote
    {
      toasts, request := [], None;
      if loaderVote || loader { return; }
      if status != 3 { return; }
      if !authorized {
        toasts := [NotAVoter];
        return;
      }
      if |proposals| == 0 {
        toasts := [NoProposals];
        return;
      }
      if !SelectionAccepted(proposal, |proposals|) {
        toasts := [InvalidProposal];
        return;
      }
      // try
      loaderVote := true;
      if outcome != NoSigner {
        request := Some(SetVote(DigitsValue(proposal)));
      }
      if outcome == NoSigner || outcome == SendFailed {
        toasts := toasts + [VoteFailed];
      } else {
        toasts := toasts + [RecordingVote];
        toasts := toasts + [if outcome == Mined then VoteRecorded else VoteFailed];
      }
      // finally
      loaderVote := false;
    }

    /** checkIfVoter: `voterFound` says whether getVoter(account) resolved,
        `fetched` is what getProposals read (None when it failed: its error is
        caught inside it and the list is left as it was). */
    method CheckIfVoter(status: int, voterFound: bool, fetched: Option<seq<Option<ProposalInfo>>>)
      returns (toasts: seq<Toast>)
      modifies this`loader, this`authorized, this`proposals
      ensures !loader
      ensures authorized == voterFound
      ensures !voterFound ==> proposals == []
      ensures voterFound ==> proposals == (if fetched.Some? then fetched.value else old(proposals))
      ensures toasts == VoterCheckToasts(voterFound, status)
    {
      toasts := [];
      // try
      loader := true;
      if voterFound {
        authorized := true;
        if fetched.Some? {
          proposals := fetched.value;
        }
        if status == 3 {
          toasts := toasts + [VotingOpen];
        } else if status == 4 {
          toasts := toasts + [VotingClosed];
        } else if status == 5 {
          toasts := toasts + [VotesTallied];
        }
      } else {
        // catch
        proposals := [];
        authorized := false;
        toasts := toasts + [NotAVoter];
      }
      // finally
      loader := false;
    }

    /** winningProposal: `read` is None when getWinningProposalID failed. */
    method WinningProposal(status: int, read: Option<WinnerRead>)
      modifies this`loader, this`winning, this`winningIndex
      ensures status < 5 ==>
        loader == old(loader) && winning == old(winning) && winningIndex == old(winningIndex)
      ensures status >= 5 ==> !loader
      ensures status >= 5 && read.Some? ==>
        winningIndex == Some(read.value.id) && winning == read.value.info
      ensures status >= 5 && read.None? ==>
        winning == old(winning) && winningIndex == old(winningIndex)
    {
      if status < 5 { return; }
      loader := true;
      // try
      if read.Some? {
        winning := read.value.info;
        winningIndex := Some(read.value.id);
      }
      // finally
      loader := false;
    }
  }

  /** Typing the number of a listed proposal and clicking the enabled button
      requests a vote for exactly that number. */
  method VoteForTypedNumber(c: Vote, n: nat, outcome: TxOutcome) returns (request: Option<Call>)
    requires c.authorized && !c.loader && !c.loaderVote
    requires 1 <= n <= |c.proposals| && n < 1000
    requires outcome != NoSigner
    modifies c
    ensures request == Some(SetVote(n))
    ensures !c.loaderVote
  {
    SelectionComplete(n, |c.proposals|);
    c.OnSelect(DecimalString(n));
    var toasts;
    toasts, request := c.CastVote(3, outcome);
  }
}
