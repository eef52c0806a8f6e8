# Voting dapp front end: the client-side gatekeeping, in Dafny

This project models the client-side logic of three React components of a
voting dapp whose authority is an external smart contract: `RegisterProposals`
(an authorized voter submits a proposal while the workflow status is 1),
`Vote` (an authorized voter casts one vote while the status is 3; the winner
is shown from status 5 on) and the `Header` page (the owner advances the
workflow one stage at a time; anyone looks up an address's voter record).

Each component's `useState` variables become the fields of a class
(`RegisterProposalsComponent.RegisterProposals`, `VoteComponent.Vote`,
`HeaderPage.Header`), and each handler becomes a method. The handler's guard
checks run in the order the handler tests them. Every contract or provider call is replaced
by an outcome parameter. For writes this is `TxOutcome`: no signer, the send
threw, the wait threw, or mined. Reads take their returned data (or its
absence) as a parameter. A handler returns the toasts it shows, as outcome
tags, and the write it requests. Its `ensures` clauses state the complete new
state: the fields it resets in `finally`, and the fields it leaves alone on
an early return. The `modifies` clause lists the only fields it may touch.

The pure parts are functions, each with lemmas:
- the guard chains (`SubmitGuard`, `VoteGuard`, `AdvanceRequest`, `LookupStepFor`);
- the three input checks;
- the panel-selection predicates;
- the list and winner texts.

The three regular expressions are modelled by the small matcher
`Patterns.Test` for an anchored repetition of one character class.
`Patterns.TestIff` characterises the matcher once and for all. The class
lemmas then turn each check into a plain statement:
- a proposal text is 10–100 characters, each an ASCII digit or letter, a
  character in U+00C0–U+00FF, a JavaScript `\s` whitespace, or one of
  `! ' ( ) * + , - . ?`;
- a vote selection is 1–3 ASCII digits whose value lies in `[1, #proposals]`;
- a workflow index is accepted iff it is an integer in `[1, 5]`.

Behaviour of the code worth knowing, which the model follows:
- In the proposal class, `'-.` is a range (U+0027..U+002E). So `( ) * +` are
  accepted, although the input's `title` lists only `' - . ! , ?`. The range
  À-ÿ also admits `×` and `÷`.
- The vote input's initial value is the number 0. It behaves in every check
  exactly as the string `"0"`, which is how the field is initialised here.
  It is refused (`InitialAndEmptySelectionRefused`).
- A proposal numbered 1000 or more can never be voted for from this page.
  The selection pattern allows three digits only (`SelectionBelow1000`).
- The Header installs its `window.onclick` handler once, at mount, and that
  handler reads the mount-time `voterInfos`, which is empty. So it never
  clears anything, and the model leaves it out.
- The winner line is chosen by `winningIndex > 0`, not by any vote count
  (`WinningSummary`).
- `String(n)` is modelled for integers below 10^21 (`DecimalString`,
  `IntString`); JavaScript writes larger ones with an exponent.

## Model

| member | source | states |
|---|---|---|
| `Outcomes.TxToasts` | voting/components/Vote.js:48-68 | a write shows one toast when the send fails, and the pending toast then "done" or the error toast once sent; the last toast is "done" exactly when the transaction was mined |
| `Outcomes.GuardToasts` | voting/components/Vote.js:24-47 | a guard that stops a handler shows no toast when silent and exactly its own toast otherwise |
| `Outcomes.Requested` | voting/components/Vote.js:51-54 | a write reaches the contract, unchanged, exactly when a signer and contract instance were obtained |
| `Patterns.TestIff` | voting/components/RegisterProposals.js:48 | an anchored repetition `^[C]{m,n}$` accepts exactly the strings of length in `[m, n]` made only of characters of C |
| `Patterns.ProposalClassIff` | voting/components/RegisterProposals.js:48 | the class `[0-9a-zA-ZÀ-ÿ\s,'-.!?]` holds exactly digits, ASCII letters, U+00C0–U+00FF, JavaScript whitespace and `! ' ( ) * + , - . ?` |
| `Patterns.DigitClassIff` | voting/components/Vote.js:39 | `[0-9]` (and `\d`) holds exactly the ASCII digits |
| `Patterns.SelectionPatternIff` | voting/components/Vote.js:39 | `^[0-9]{1,3}$` accepts exactly the strings of one to three ASCII digits |
| `Patterns.IndexPatternIff` | voting/pages/Header.js:69 | `^\d+$` accepts exactly the non-empty ASCII digit strings |
| `Patterns.Test` | voting/components/RegisterProposals.js:48 | a string the anchored repetition accepts has a length within the repetition's bounds |
| `Patterns.DigitsValue` | voting/components/Vote.js:41-42 | the number a digit string denotes (leading zeros allowed); a k-digit string denotes a number below 10^k |
| `Patterns.DecimalString` | voting/pages/Header.js:69 | String(n) of a non-negative integer below 10^21 is a non-empty digit string |
| `Patterns.IntString` | voting/pages/Header.js:69 | String(i) of an integer of magnitude below 10^21 is all digits exactly when i is non-negative |
| `Patterns.DecimalRoundTrip` | voting/components/Vote.js:41-42 | reading a rendered number back as a number gives the number |
| `Patterns.DecimalLength` | voting/components/Vote.js:39 | a number renders in at most k digits exactly when it is below 10^k |
| `RegisterProposalsComponent.ProposalTextAccepted` | voting/components/RegisterProposals.js:47-50 | a proposal text is accepted iff it has 10 to 100 characters, all from the proposal class |
| `RegisterProposalsComponent.SubmitGuard` | voting/components/RegisterProposals.js:39-54 | silent while loading or status ≠ 1; otherwise "not a voter" when unauthorized; otherwise "invalid" for a refused text; proceeds iff not loading, status 1, authorized and text accepted |
| `RegisterProposalsComponent.VoterCheckToasts` | voting/components/RegisterProposals.js:27-36 | a stage toast is shown only after a successful getVoter and only at status 1 or 2: "may propose" exactly at 1, "registration closed" at 2; failure is silent |
| `RegisterProposalsComponent.FormShown` | voting/components/RegisterProposals.js:87 | while the form is shown, a submission never meets the not-a-voter refusal |
| `RegisterProposalsComponent.FormDisabled` | voting/components/RegisterProposals.js:108-111 | input and button are disabled exactly when a click would return silently, whatever the authorization and the text |
| `RegisterProposalsComponent.NotVoterShown` | voting/components/RegisterProposals.js:122 | while the not-a-voter panel is shown, no submission reaches addProposal |
| `RegisterProposalsComponent.PanelsExclusive` | voting/components/RegisterProposals.js:87-122 | the form and the not-a-voter panel never appear together; with an account at status 1 or 2 one of them does |
| `RegisterProposalsComponent.EnabledButtonReachesTextCheck` | voting/components/RegisterProposals.js:108-112 | a click on the visible, enabled button is decided by the text check alone |
| `RegisterProposalsComponent.RegisterProposals.constructor` | voting/components/RegisterProposals.js:13-15 | the form starts empty, unauthorized and idle |
| `RegisterProposalsComponent.RegisterProposals.OnInput` | voting/components/RegisterProposals.js:106 | typing stores the text |
| `RegisterProposalsComponent.RegisterProposals.CheckIfVoter` | voting/components/RegisterProposals.js:18-37 | `authorized` becomes the success of getVoter; toasts as VoterCheckToasts; nothing else changes |
| `RegisterProposalsComponent.RegisterProposals.RegisterProposal` | voting/components/RegisterProposals.js:39-77 | a stopped submission shows the guard's toast, requests nothing and leaves text and loader alone; an accepted one requests addProposal(text) and ends with loader false and the text cleared, whatever the outcome |
| `RegisterProposalsComponent.SubmitTypedText` | voting/components/RegisterProposals.js:106-112 | an accepted typed text is exactly what addProposal receives, and the form is then cleared |
| `VoteComponent.SelectionAccepted` | voting/components/Vote.js:38-47 | a selection is accepted iff it is 1–3 ASCII digits whose value lies in `[1, #proposals]` |
| `VoteComponent.SelectionComplete` | voting/components/Vote.js:38-42 | every proposal number from 1 to min(#proposals, 999), typed in decimal, is accepted and denotes that number |
| `VoteComponent.SelectionBelow1000` | voting/components/Vote.js:39 | no accepted selection denotes 1000 or more |
| `VoteComponent.InitialAndEmptySelectionRefused` | voting/components/Vote.js:38-42 | the initial value 0 and the empty input are refused |
| `VoteComponent.NonDigitSelectionRefused` | voting/components/Vote.js:39 | a sign, decimal point or exponent anywhere is refused |
| `VoteComponent.VoteGuard` | voting/components/Vote.js:22-47 | silent while either loader is set or status ≠ 3, before the authorization check; then "not a voter", then "Aucune proposition" for an empty list, then "invalid" for a refused selection; proceeds iff all pass |
| `VoteComponent.VoterCheckToasts` | voting/components/Vote.js:186-198 | failure shows "not a voter"; success shows a stage toast exactly at status 3, 4 or 5: "voting open" at 3, "votes closed" at 4, "tallied" exactly at 5 |
| `VoteComponent.PresentCount` | voting/components/Vote.js:152-154 | the number of readable entries is at most the list's length |
| `VoteComponent.Entries` | voting/components/Vote.js:152-168 | the rendered items are the present entries, in list order, each keyed by its index, with its vote count exactly when votes are shown |
| `VoteComponent.DisplayProposals` | voting/components/Vote.js:136-169 | nothing when unauthorized; the empty notice for an empty list unless loading; otherwise one item per present proposal, with counts exactly at status 5 — the list `Entries` renders from the first index |
| `VoteComponent.ListNumberingMatchesIndex` | voting/components/Vote.js:152-157 | with no entry missing, the n-th numbered item is proposal n − 1 of the list |
| `VoteComponent.AllPresentCount` | voting/components/Vote.js:152-154 | a list with no missing entry has all its entries rendered |
| `VoteComponent.VotingPanelContent` | voting/components/Vote.js:228-265 | a spinner exactly while loading; the form exactly when not loading with proposals; the form invites a vote exactly at status 3 |
| `VoteComponent.VotingPanelShown` | voting/components/Vote.js:223-226 | while the voting panel is shown, a click never meets the not-a-voter refusal |
| `VoteComponent.ResultPanelShown` | voting/components/Vote.js:269 | while the result panel is shown, the vote handler returns silently whatever the state |
| `VoteComponent.NotVoterPanelShown` | voting/components/Vote.js:307 | while the not-a-voter panel is shown, no click leads to a vote |
| `VoteComponent.VoteButtonDisabled` | voting/components/Vote.js:245-247 | the vote button is disabled exactly when a click would return silently, whatever the authorization, list and selection |
| `VoteComponent.ResultPanelContent` | voting/components/Vote.js:272-304 | a spinner exactly while loading; otherwise the winning line, naming a winner exactly when winningIndex > 0 |
| `VoteComponent.VotePanelsExclusive` | voting/components/Vote.js:223-307 | the voting, result and not-a-voter panels are pairwise exclusive, and one is shown with an account once status ≥ 3 or when unauthorized |
| `VoteComponent.EnabledVoteButtonReachesSelection` | voting/components/Vote.js:244-248 | a click on the rendered, enabled vote button is decided by the selection check alone |
| `VoteComponent.WinningSummary` | voting/components/Vote.js:287-299 | "Numéro i - …" iff winningIndex > 0; otherwise "none registered" for an empty list and "none voted" for a non-empty one |
| `VoteComponent.Vote.constructor` | voting/components/Vote.js:13-19 | the initial state: no proposals, selection 0, unauthorized, no winner, both loaders off |
| `VoteComponent.Vote.OnSelect` | voting/components/Vote.js:242 | the input stores what it reports |
| `VoteComponent.Vote.CastVote` | voting/components/Vote.js:22-69 | only `loaderVote` may change; a stopped vote shows the guard's toast and sends nothing; an accepted vote requests setVote(n) with n in `[1, #proposals]` and ends with loaderVote false whether it succeeded or failed |
| `VoteComponent.Vote.CheckIfVoter` | voting/components/Vote.js:172-201 | loader ends false; success sets authorized and takes the fetched list (keeping the old one if the fetch failed); failure leaves authorized false and the list empty |
| `VoteComponent.Vote.WinningProposal` | voting/components/Vote.js:88-109 | below status 5 nothing changes; from 5 on loader ends false and a successful read stores the winner's index and details |
| `VoteComponent.VoteForTypedNumber` | voting/components/Vote.js:238-248 | typing a listed proposal's number and clicking requests a vote for exactly that number |
| `HeaderPage.StageLabel` | voting/pages/Header.js:26-34 | a stage label exists exactly for statuses 0 to 6 |
| `HeaderPage.IndexAccepted` | voting/pages/Header.js:69 | the index check accepts an integer iff it lies in `[1, 5]` |
| `HeaderPage.AdvanceOpFor` | voting/pages/Header.js:81-91 | the operation chosen for an accepted index is the one that index selects |
| `HeaderPage.SelectingIndex` | voting/pages/Header.js:81-91 | every operation is selected by an index in `[1, 5]` |
| `HeaderPage.AdvanceOpBijection` | voting/pages/Header.js:81-91 | indices 1..5 and the five operations are in one-to-one correspondence |
| `HeaderPage.AdvanceRequest` | voting/pages/Header.js:67-91 | an operation is requested iff not loading and the index is in `[1, 5]`, and it is the one that index selects |
| `HeaderPage.OwnerButtonRequestsNextStage` | voting/pages/Header.js:139-143 | from status 0–4 the owner button requests the operation of the stage its label names, each of the five (operation, label) pairs written out; from 5 or 6 it requests nothing |
| `HeaderPage.LookupStepFor` | voting/pages/Header.js:37-49 | no-op when loading or empty; the sentinel text is cleared; a non-address is marked invalid; a lookup happens exactly for an address |
| `HeaderPage.FailedLookupClearsOnNextClicks` | voting/pages/Header.js:38-43 | after a failed lookup one click empties the input and the next does nothing |
| `HeaderPage.VoterInfoView` | voting/pages/Header.js:172-181 | the record is shown exactly with an account and a result; the voted proposal id appears exactly when hasVoted |
| `HeaderPage.AdminPanelShown` | voting/pages/Header.js:136 | the administrator block never appears before the owner is known, nor beside the unlock prompt |
| `HeaderPage.CurrentStageShown` | voting/pages/Header.js:149 | the current-stage line never appears beside the unlock prompt |
| `HeaderPage.UnlockPromptShown` | voting/pages/Header.js:152 | while the unlock prompt is shown, no voter record is rendered |
| `HeaderPage.ConnectButtonShown` | voting/pages/Header.js:153 | the connect button is shown exactly when, whatever the account, neither the current stage nor the unlock prompt is |
| `HeaderPage.ExactlyOneConnectionLine` | voting/pages/Header.js:149-155 | exactly one of the current stage, the unlock prompt and the connect button is rendered |
| `HeaderPage.Header.constructor` | voting/pages/Header.js:21-23 | the lookup starts empty and idle |
| `HeaderPage.Header.SetWorkflowStatus` | voting/pages/Header.js:67-114 | a refused index or a busy page changes nothing and sends nothing; an accepted one requests the selected operation, re-reads the status only once mined, and ends with loader false |
| `HeaderPage.Header.NextStage` | voting/pages/Header.js:139-141 | the owner button only ever requests the operation for status + 1 with status in 0–4 |
| `HeaderPage.Header.GetVoterInfo` | voting/pages/Header.js:37-64 | the input state machine of LookupStepFor; a successful lookup stores the tuple, a failed one sets the sentinel text and keeps the old result |
| `HeaderPage.Header.OnAccountChange` | voting/pages/Header.js:116-121 | an empty account clears both the input and the result; otherwise nothing changes |
| `HeaderPage.Header.OnInput` | voting/pages/Header.js:163-166 | editing clears any shown result and stores the text |

## Left out

- Contract and provider calls: `getProviderOrSigner`, `getContractInstance`,
  `addProposal`, `setVote`, the five advance operations, `getVoter`,
  `getOneProposal`, `getWinningProposalID`, `queryFilter` and `tx.wait`. They
  are JSON-RPC I/O, so each handler takes its outcome and returned data as a
  parameter. `getProposals` and `getOneProposal` appear only as the list they
  produce, in which `None` stands for an entry that could not be read.
- The `once` event listeners and all console logging: they only log.
- Async interleaving. The effect starts `checkIfVoter` and `winningProposal`
  without awaiting them, and both set and reset `Vote.loader`. React's
  asynchronous state updates and effect re-runs can also race a request
  that is still in flight. The model runs each handler to completion, one at
  a time.
- `ethers.utils.isAddress`: a foreign library (hex form and EIP-55
  checksum). It is a `string -> bool` parameter of `GetVoterInfo`.
- `VoteComponent.Entries`: shows the description as stored. The upper-casing
  of the first letter (`toUpperCase`) is left out.
- `VoteComponent.WinningSummary`: the winner's description is carried
  unchanged, without the upper-casing of its first letter.
- BigNumber conversions (`toNumber`, `toString`): ids and counts are `nat`.
- JSX markup, styles, images and toast wording beyond an outcome tag. The
  spinners that choose between content and loading are modelled
  (`VotingPanelContent`, `ResultPanelContent`); the ones shown beside a
  button while a transaction runs are not.
- Heading and caption texts that switch on the same tests as the modelled
  predicates, such as "Enregistrement terminé" for status ≠ 1. Only the
  switching test is modelled.
- Integers of 10^21 or more, which `String` renders with an exponent: the
  index checked is status + 1 and stays far below.
- The `window.onclick` handler. It captures the mount-time, empty
  `voterInfos`, so its clearing branch never runs.
- `setWorkflowStatus` called with a non-number: a string such as "3" would
  pass the checks but match no `===` branch. Its only caller passes
  `workflowStatus + 1`, a number, so the index is an `int`.
- `connectWallet` and `getWorkFlowStatus` belong to the shared context, not
  to these components. The re-read is a returned flag.
- The contract's workflow state machine and its authorization rules. The
  contract is not part of this model, which only mirrors the integer status
  the UI reads.
