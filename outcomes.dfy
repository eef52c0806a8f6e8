/** Values shared by the three components: what the contract returns, the
    write transactions a component can request, how such a transaction ends,
    and the toast notifications shown to the user. */
module Outcomes {

  datatype Option<T> = None | Some(value: T)

  /** A proposal as getOneProposal returns it. */
  datatype ProposalInfo = ProposalInfo(description: string, voteCount: nat)

  /** The (isRegistered, hasVoted, votedProposalId) tuple getVoter returns. */
  datatype VoterInfo = VoterInfo(isRegistered: bool, hasVoted: bool, votedProposalId: nat)

  /** The five workflow-advance operations of the contract. */
  datatype AdvanceOp =
    | StartProposalsRegistering
    | EndProposalsRegistering
    | StartVotingSession
    | EndVotingSession
    | TallyVotes

  /** The write transactions a component can request. */
  datatype Call =
    | AddProposal(description: string)
    | SetVote(proposalId: nat)
    | Advance(op: AdvanceOp)

  /** How an awaited write ends. The provider, the contract and the wallet are
      outside the model, so the caller chooses the outcome. */
  datatype TxOutcome =
    | NoSigner    // getProviderOrSigner or getContractInstance threw: nothing was requested
    | SendFailed  // the contract call itself threw (refused in the wallet, reverted)
    | WaitFailed  // the transaction was sent but tx.wait() threw
    | Mined       // tx.wait() resolved

  /** Toast notifications, by outcome tag rather than by wording. */
  datatype Toast =
    | NotAVoter          // "Vous n'êtes pas un votant"
    | NoProposals        // "Aucune proposition"
    | InvalidProposal    // "proposition invalide"
    | RecordingVote      // "Enregistrement du vote..."
    | VoteRecorded       // "Vote enregistré !"
    | VoteFailed         // "Déjà voté ou erreur lors du vote"
    | RecordingProposal  // "Enregistrement de la proposition..."
    | ProposalRecorded   // "Proposition enregistrée"
    | ProposalFailed     // "Erreur lors de l'enregistrement de la proposition"
    | MayPropose         // "Vous pouvez faire une proposition"
    | ProposalsClosed    // "Enregistrement des propositions terminé"
    | VotingOpen         // "Bienvenue à la session de vote !"
    | VotingClosed       // "Les votes sont terminés !"
    | VotesTallied       // "Le décompte a été effectué !"

  /** What a click does before any network call: return silently, show one
      toast and return, or go on to the transaction. */
  datatype Guard = Silent | Refuse(toast: Toast) | Proceed

  /** The toasts a guard shows when it stops the handler. */
  function GuardToasts(g: Guard): (r: seq<Toast>)
    requires g != Proceed
    ensures r == [] <==> g == Silent
    ensures g.Refuse? ==> r == [g.toast]
  {
    if g.Refuse? then [g.toast] else []
  }

  /** The request that reaches the contract: none when no signer could be
      obtained, otherwise the call itself. */
  function Requested(outcome: TxOutcome, call: Call): (r: Option<Call>)
    ensures r == None || r == Some(call)
    ensures r.Some? <==> outcome != NoSigner
  {
    if outcome == NoSigner then None else Some(call)
  }

  /** The toasts of a try / catch around "send, toast pending, wait, toast
      done", the catch toasting `failed`. */
  function TxToasts(outcome: TxOutcome, pending: Toast, done: Toast, failed: Toast): (r: seq<Toast>)
    ensures 1 <= |r| <= 2
    ensures r[|r| - 1] == (if outcome == Mined then done else failed)
    ensures |r| == 2 <==> outcome == WaitFailed || outcome == Mined
    ensures |r| == 2 ==> r[0] == pending
  {
    match outcome
    case NoSigner => [failed]
    case SendFailed => [failed]
    case WaitFailed => [pending, failed]
    case Mined => [pending, done]
  }
}
