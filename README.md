# Dispute flow example: client-side rules

A model of the rules that the dispute-flow demo enforces in the browser before
anything reaches the claims contract:

- the create-dispute form (`ClaimCreateForm`): the stake clamp (at least 150
  tokens, at most the allowance once the allowance exceeds 150), deal-id
  normalisation, the validity test that enables its submit button, and the
  payload it submits;
- the allowance form (`AllowanceForm`): normalisation of the new allowance,
  which controls are shown for a given current allowance, when Approve is
  disabled, how the current allowance is displayed, and what Approve hands on;
- the resolve form (`ClaimResolveForm`): its validity test and the resolution
  it submits;
- the top-level component (`App`): when the Accept, Resolve and Close panels
  and the Accept button are enabled, the role checks made before a
  transaction is built, the loading-flag discipline of
  `runBlockchainOperation`, and the claim id kept in the browser's storage
  across reloads.

The JavaScript built-ins these rules depend on are modelled in module `Js`:
`null` and `NaN` as `None`, truthiness, relational comparison with `null`,
`String.prototype.trim`, `parseInt` without a radix, and `toString` on a
non-negative integer. `NumberInput` holds the "zero, negative or unparseable
becomes `null`" rule that the deal-id and new-allowance inputs share.

React component state is a class with one field per state entry, and
`setState` is a field assignment. A component's properties (the current
allowance) are parameters. The wallet, the JSON-RPC node and the claims SDK
appear only as an `Env` value. It holds the outcome of the wallet's enable
handshake, the selected address, and a `Chain` of functions that stand for
the SDK calls; each call ends with a value, or with a rejected promise or
thrown error and its reason. Calls that never end are not modelled. The
component's observable effects are recorded in a ghost `trace` of events:
the loading flag raised or lowered, the operation called with a wallet, a
transaction sent, another operation started, an error reported. The pure
function `App.Operate` is the body of each operation callback.
`App.Execute` adds the enable handshake and the wallet check. The methods of
`App.App` are proved to update the state and the trace exactly as those
functions say.

## Model

| member | source | states |
|---|---|---|
| Js.TrimmedAway | src/components/ClaimResolveForm/index.tsx:76 | `trim` leaves nothing exactly when every character is white space; otherwise the result starts and ends with a character that is not |
| Js.IsBlank | src/components/ClaimCreateForm/index.tsx:191-201 | `!s \|\| !s.trim()` holds exactly when the text is null or holds only white space |
| Js.ParseIntOfDecimalString | src/components/App/index.tsx:221 | `parseInt` reads back the decimal `toString` of any non-negative integer as that integer |
| Js.ParseInt | src/components/ClaimCreateForm/index.tsx:132 | `parseInt` gives NaN exactly when no digit of the radix follows the leading white space, the optional sign and the optional `0x` prefix; a non-zero result is negative exactly when the sign is `-` |
| Js.ParseUnsigned | src/components/AllowanceForm/index.tsx:124 | the unsigned part reads a non-negative number, and gives NaN exactly when it does not start with a digit of its radix |
| NumberInput.PositiveOrNull | src/components/ClaimCreateForm/index.tsx:148-151 | the normalised value is null or positive; it is kept exactly when the parsed number is positive, and NaN, 0 and negatives become null |
| NumberInput.PositiveOrNullIdempotent | src/components/AllowanceForm/index.tsx:124-127 | normalising an already normalised value changes nothing |
| ClaimCreateForm.StakeAfterChange | src/components/ClaimCreateForm/index.tsx:132-140 | the new stake is at least 150; it is exactly 150 for NaN, 0 or input below 150; it is at most the allowance when the allowance exceeds 150 and equals the allowance when the input is above it; input of 150 or more is kept when the allowance is 150 or less, and when it lies within [150, allowance] |
| ClaimCreateForm.StakeClampIdempotent | src/components/ClaimCreateForm/index.tsx:128-145 | applying the stake rule to its own result leaves the stake unchanged |
| ClaimCreateForm.RetypedStakeKept | src/components/ClaimCreateForm/index.tsx:128-145 | typing the decimal text of an admissible stake back into the input keeps that stake |
| ClaimCreateForm.StakeWithinBoundsAfterChange | src/components/ClaimCreateForm/index.tsx:138-140 | with an allowance above 150, any input leaves a stake between 150 and the allowance, the range `isFormValid` accepts |
| ClaimCreateForm.ClaimCreateForm.constructor | src/components/ClaimCreateForm/index.tsx:29-35 | the form starts with stake 150 and every other field null, and is invalid for every allowance |
| ClaimCreateForm.ClaimCreateForm.OnStakeChange | src/components/ClaimCreateForm/index.tsx:128-145 | the stake becomes the clamp of what `parseInt` reads from the input, no other field changes, and the form invariant is kept |
| ClaimCreateForm.ClaimCreateForm.OnDealIdChange | src/components/ClaimCreateForm/index.tsx:147-156 | the deal id becomes the normalised parse of the input, so it is null or positive; no other field changes |
| ClaimCreateForm.ClaimCreateForm.OnReasonChange | src/components/ClaimCreateForm/index.tsx:158-162 | the reason is stored exactly as entered; no other field changes |
| ClaimCreateForm.ClaimCreateForm.OnRequesterIdChange | src/components/ClaimCreateForm/index.tsx:164-168 | the requester id is stored exactly as entered; no other field changes |
| ClaimCreateForm.ClaimCreateForm.OnRespondentIdChange | src/components/ClaimCreateForm/index.tsx:170-174 | the respondent id is stored exactly as entered; no other field changes |
| ClaimCreateForm.ClaimCreateForm.IsFormValid | src/components/ClaimCreateForm/index.tsx:178-204 | valid exactly when 150 <= stake <= allowance (null allowance as 0), a deal id of 0 or more is present, and reason, requester id and respondent id each hold a character that is not white space |
| ClaimCreateForm.ClaimCreateForm.OnSubmit | src/components/ClaimCreateForm/index.tsx:206-218 | the payload carries deal id, reason, requester id and respondent id unchanged, with tokens equal to the stake |
| ClaimCreateForm.NoSubmitWithoutAllowance | src/components/ClaimCreateForm/index.tsx:183 | while the allowance is null, the form is never valid |
| AllowanceForm.AllowanceDisplay | src/components/AllowanceForm/index.tsx:37 | the field shows the number exactly when the allowance is known and not negative, and "..." when it is null |
| AllowanceForm.ApproveControlsShown | src/components/AllowanceForm/index.tsx:79-83 | the new-allowance input and the Approve button are rendered exactly when the allowance is 0; null does not count |
| AllowanceForm.ClearButtonShown | src/components/AllowanceForm/index.tsx:51-55 | the Clear button is rendered exactly when the allowance is known and not 0 |
| AllowanceForm.ApproveOrClearExclusive | src/components/AllowanceForm/index.tsx:51-106 | Approve and Clear are never offered together; once the allowance is known exactly one of them is, and while it is null neither is |
| AllowanceForm.AllowanceForm.constructor | src/components/AllowanceForm/index.tsx:22-27 | the new allowance starts at 150, so Approve starts enabled |
| AllowanceForm.AllowanceForm.OnNewAllowanceChange | src/components/AllowanceForm/index.tsx:123-132 | the new allowance becomes the normalised parse of the input: null for NaN, 0 or negatives, otherwise the parsed positive number |
| AllowanceForm.AllowanceForm.ApproveButtonDisabled | src/components/AllowanceForm/index.tsx:110 | Approve is disabled exactly when the new allowance is null or 0 |
| AllowanceForm.AllowanceForm.OnApprove | src/components/AllowanceForm/index.tsx:134-140 | the stored new allowance is passed on unchanged; it is positive whenever Approve is enabled |
| ClaimResolveForm.ClaimResolveForm.constructor | src/components/ClaimResolveForm/index.tsx:19-25 | the resolution starts null and the form starts invalid |
| ClaimResolveForm.ClaimResolveForm.OnResolutionChange | src/components/ClaimResolveForm/index.tsx:67-71 | the text is stored verbatim, untrimmed; the form is then valid exactly when the text holds a character that is not white space |
| ClaimResolveForm.ClaimResolveForm.IsFormValid | src/components/ClaimResolveForm/index.tsx:73-81 | valid exactly when the resolution is present and holds a character that is not white space |
| ClaimResolveForm.ClaimResolveForm.OnSubmit | src/components/ClaimResolveForm/index.tsx:83-87 | the stored resolution is passed on unchanged; it is non-blank whenever the form is valid |
| App.AcceptPanelDisabled | src/components/App/index.tsx:238 | the Accept panel is enabled exactly when a claim is loaded and awaits acceptance |
| App.AcceptButtonDisabled | src/components/App/index.tsx:239 | the Accept button is enabled exactly when a claim is loaded and its requester's stake is at most the allowance, with null read as 0 |
| App.ResolvePanelDisabled | src/components/App/index.tsx:296 | the Resolve panel is enabled exactly when a claim is loaded and awaits resolution |
| App.ClosePanelDisabled | src/components/App/index.tsx:345-360 | the Close panel is enabled exactly when a claim is loaded and it awaits confirmation, or it awaits acceptance or resolution and at least 72 hours have passed |
| App.RespondentPanelsExclusive | src/components/App/index.tsx:233-320 | the Accept and Resolve panels are never enabled together |
| App.CloseAroundDeadline | src/components/App/index.tsx:345-360 | before 72 hours only a claim awaiting confirmation can be closed; from 72 hours on, a claim whose Accept or Resolve panel is enabled can also be closed |
| App.CloseStaysEnabled | src/components/App/index.tsx:345-360 | once Close is enabled, it stays enabled as more time passes |
| App.AcceptButtonMonotone | src/components/App/index.tsx:239 | a larger allowance never disables the Accept button |
| App.Operate | src/components/App/index.tsx:89-406 | every operation callback leaves the loading flag alone, never calls another callback, and reports at most one error, as its last event |
| App.InvokedOnlyWithWallet | src/components/App/index.tsx:437-444 | the operation is called only after a successful handshake with a non-empty selected wallet; it is then called once, first, with that wallet |
| App.NoWalletNoOperation | src/components/App/index.tsx:439-442 | with no wallet selected, "No wallet selected" is reported, the operation is not called and nothing changes |
| App.ExecuteKeepsLoadingFlag | src/components/App/index.tsx:437-447 | between raising and lowering the loading flag nothing touches it, and at most one error is reported, as the last event |
| App.LoadingBracketsOperation | src/components/App/index.tsx:434-451 | every run that ends raises the loading flag first, lowers it last on each of its exit paths, and calls the operation only with the selected wallet |
| App.AcceptRoleCheck | src/components/App/index.tsx:271-287 | accepting from the requester's wallet is refused with its message and nothing sent; from any other wallet the accept transaction for the claim is sent first |
| App.ResolveRoleCheck | src/components/App/index.tsx:322-336 | resolving from any wallet but the respondent's is refused with nothing sent; from the respondent's the resolve transaction with the resolution as given is sent first |
| App.CloseRoleCheck | src/components/App/index.tsx:392-406 | closing from any wallet but the requester's is refused with nothing sent; from the requester's the close transaction is sent first |
| App.NoClaimNoTx | src/components/App/index.tsx:271-275 | accept, resolve or close with no claim loaded fails on the null claim and sends nothing |
| App.StoredClaimIdReloads | src/components/App/index.tsx:47-55 | a stored claim id written by `toString` is loaded back as the same integer on mount; with no stored id only the allowance is refreshed |
| App.CreatedClaimSurvivesReload | src/components/App/index.tsx:211-227 | a created claim's id is stored, the creating operation loads that claim, and a later mount loads that same claim |
| App.CreateSavesIdOnlyOnSuccess | src/components/App/index.tsx:212-226 | the create transaction is sent first; the claim id is stored exactly when the transaction went through and the id could be read from its receipt, and otherwise the failure is the last event and the storage is left alone |
| App.App.constructor | src/components/App/index.tsx:34-45 | the component starts not loading, with no claim and no allowance, and with whatever the browser's storage holds |
| App.App.ComponentDidMount | src/components/App/index.tsx:47-55 | mounting starts the allowance refresh and, when a claim id is stored, the load of the claim it parses to; the started runs raise the loading flag, and claim, allowance and storage are unchanged |
| App.App.RunBlockchainOperation | src/components/App/index.tsx:434-451 | when the run ends, the trace follows the loading discipline, the flag is lowered, and claim, allowance and stored id are updated exactly as the operation says |
| App.App.TryOperation | src/components/App/index.tsx:437-447 | a refused handshake or a missing wallet is reported; otherwise the operation runs with the selected wallet, and its results are written to the state |
| App.App.CallOperation | src/components/App/index.tsx:439-444 | the operation is called with the wallet, its events are appended, and each value it fetched or stored replaces the old one |
| App.App.LoadClaim | src/components/App/index.tsx:89-95 | loading a claim is one bracketed operation that stores the fetched claim |
| App.App.RefreshCurrentAllowance | src/components/App/index.tsx:118-125 | refreshing is one bracketed operation that stores the wallet's allowance |
| App.App.OnApproveAllowance | src/components/App/index.tsx:127-135 | approving sends the allow transaction for the given amount and then starts a refresh |
| App.App.OnClearAllowance | src/components/App/index.tsx:137-145 | clearing sends the clear-allowance transaction and then starts a refresh |
| App.App.OnCreateClaim | src/components/App/index.tsx:211-227 | creating sends the create transaction, stores the new claim id as decimal text, then starts loading that claim and a refresh; a failed send or an id that cannot be read is reported and nothing is stored |
| App.App.OnAcceptClaim | src/components/App/index.tsx:271-287 | accepting works on the claim loaded at the click, with the role check before any transaction |
| App.App.OnResolveClaim | src/components/App/index.tsx:322-336 | resolving works on the claim loaded at the click, with the role check before any transaction |
| App.App.OnCloseClaim | src/components/App/index.tsx:392-406 | closing works on the claim loaded at the click, with the role check before any transaction |

## Left out

- The wallet provider (`src/utils/metamask.ts`) and the JSON-RPC client (`src/utils/web3.ts`): the enable handshake and the selected address are inputs (`Env`), and sending a transaction and waiting for it is one function that settles with a receipt or a rejection; gas, nonce and the polling in `waitForTxToFinish` are not modelled.
- The claims SDK (`getClaim`, `getAllowance`, the transaction builders, `getClaimIdFromCreateTXReceipt`): uninterpreted functions in `Chain`; a transaction is a datatype that records its arguments.
- Calls that never end: `waitForTxToFinish` polls with no bound and the wallet's enable request can stay pending. On those paths `runBlockchainOperation` never reaches its `finally` and the loading flag stays up. The model covers only runs whose calls end.
- The SDK's transaction builders (`allowTx`, `clearAllowanceTx`, `createTx`, `acceptTx`, `resolveTx`, `closeTx`) are datatype constructors that always succeed; a synchronous throw from one of them is not modelled.
- App.App.ComponentDidMount: only the synchronous start of the runs it begins (their raising of the loading flag) is modelled; what those runs do after their first `await` is a separate step.
- Interleaving: a nested `loadClaim` or `refreshCurrentAllowance` that an operation starts is recorded as a `Started` event and not run. Concurrent runs of `runBlockchainOperation` share the loading flag, and that race (a nested run can lower the flag while another still works) is not modelled.
- App.App.RunBlockchainOperation: the loading flag is modelled for one run at a time, because the source does not await nested runs and their order depends on the network.
- Browser storage I/O: the 'claim_id' entry is a field; only the `toString`/`parseInt` round trip is modelled.
- Time: the hours elapsed since a claim's last change (computed with `moment`) are a parameter.
- Number precision: `BigNumber` and JavaScript numbers are unbounded integers. `parseInt` beyond 2^53, `Infinity`, exponent forms of `toString` from 1e21 on, and a NaN allowance are not modelled.
- Js.ParseIntOfDecimalString: stated for exact integers, not for the rounding of doubles above 2^53.
- Reporting: `console.error` and `alert` become one `Reported` event. The wording of the TypeError raised on a null claim is engine-specific and is not modelled.
- Rendering, JSX and CSS, and the purely presentational components Panel, SidedContainer, Loader and ClaimInfo. A disabled panel is only a CSS class, so the gating functions are computed flags, not enforcement. The Close button and the resolve form's submit are not gated on a loaded claim; clicking them without one reaches the null-claim error.
- The Refresh button of the allowance form, and the `if (onClear)` / `if (onApprove)` checks for a missing property: the parent always passes both handlers.
- AllowanceForm.AllowanceDisplay: a negative allowance shows "..." in the source and here; the SDK never returns one, and a NaN allowance is not modelled.
