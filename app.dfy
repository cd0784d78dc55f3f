/**
 * The top-level component: which dispute actions are enabled for the current
 * claim, the client-side role checks made before a transaction is built,
 * `runBlockchainOperation` with its loading flag, and the claim id kept in
 * the browser's storage across reloads.
 *
 * The wallet, the JSON-RPC node and the claims SDK are not modelled; an
 * operation sees them only through `Env`: the outcome of the wallet's enable
 * handshake, the selected address, and a `Chain` of functions standing for
 * the SDK calls, each of which settles with a value or a rejection.
 */
module App {
  import opened Js
  import ClaimCreateForm

  /** Hours after the last change of a claim from which the requester may
      close a dispute that is still awaiting acceptance or resolution. */
  const CloseAfterHours := 72

  datatype ClaimStatus = AwaitingAcceptance | AwaitingResolution | AwaitingConfirmation | Other

  /** The snapshot of a claim fetched from the SDK (the fields this
      component reads). */
  datatype Claim = Claim(
    id: int,
    stateId: ClaimStatus,
    requesterAddress: string,
    respondentAddress: string,
    requesterStaked: int)

  // ---------------------------------------------------------------- gating

  /** The Accept panel is greyed out unless the claim awaits acceptance. */
  function AcceptPanelDisabled(claim: Option<Claim>): (disabled: bool)
    ensures !disabled <==> claim.Some? && claim.value.stateId == AwaitingAcceptance
  {
    claim.None? || claim.value.stateId != AwaitingAcceptance
  }

  /** The Accept button is disabled unless the respondent's allowance (with
      `null` read as 0) covers what the requester staked. */
  function AcceptButtonDisabled(claim: Option<Claim>, allowance: Option<int>): (disabled: bool)
    ensures !disabled <==> claim.Some? && claim.value.requesterStaked <= NullAsZero(allowance)
  {
    claim.None? || claim.value.requesterStaked > (if IsTruthy(allowance) then allowance.value else 0)
  }

  /** The Resolve panel is greyed out unless the claim awaits resolution. */
  function ResolvePanelDisabled(claim: Option<Claim>): (disabled: bool)
    ensures !disabled <==> claim.Some? && claim.value.stateId == AwaitingResolution
  {
    claim.None? || claim.value.stateId != AwaitingResolution
  }

  /**
   * The Close panel is greyed out unless the claim awaits confirmation, or it
   * still awaits acceptance or resolution and `CloseAfterHours` have passed
   * since its last change. Every other state leaves it greyed out.
   */
  function ClosePanelDisabled(claim: Option<Claim>, hoursElapsed: int): (disabled: bool)
    ensures !disabled <==>
      claim.Some?
      && (claim.value.stateId == AwaitingConfirmation
          || ((claim.value.stateId == AwaitingAcceptance || claim.value.stateId == AwaitingResolution)
              && hoursElapsed >= CloseAfterHours))
  {
    if claim.None? then true
    else match claim.value.stateId
      case AwaitingConfirmation => false
      case AwaitingAcceptance => hoursElapsed < CloseAfterHours
      case AwaitingResolution => hoursElapsed < CloseAfterHours
      case Other => true
  }

  /** The respondent is never offered both accepting and resolving. */
  lemma RespondentPanelsExclusive(claim: Option<Claim>)
    ensures AcceptPanelDisabled(claim) || ResolvePanelDisabled(claim)
  {
  }

  /** Before the deadline, closing is offered only for a claim awaiting
      confirmation; after it, a dispute the respondent left waiting can be
      closed by the requester. */
  lemma CloseAroundDeadline(claim: Option<Claim>, hoursElapsed: int)
    ensures hoursElapsed < CloseAfterHours ==>
      (!ClosePanelDisabled(claim, hoursElapsed) <==>
        claim.Some? && claim.value.stateId == AwaitingConfirmation)
    ensures hoursElapsed >= CloseAfterHours
            && (!AcceptPanelDisabled(claim) || !ResolvePanelDisabled(claim))
            ==> !ClosePanelDisabled(claim, hoursElapsed)
  {
  }

  /** Once closing is offered, waiting longer does not withdraw it. */
  lemma CloseStaysEnabled(claim: Option<Claim>, hours: int, later: int)
    requires hours <= later
    ensures !ClosePanelDisabled(claim, hours) ==> !ClosePanelDisabled(claim, later)
  {
  }

  /** A larger allowance never disables the Accept button. */
  lemma AcceptButtonMonotone(claim: Option<Claim>, allowance: int, larger: int)
    requires allowance <= larger
    ensures !AcceptButtonDisabled(claim, Some(allowance)) ==> !AcceptButtonDisabled(claim, Some(larger))
  {
  }

  // ---------------------------------------------------------- operations

  /** A transaction built by the SDK. */
  datatype Tx =
    | AllowTx(tokens: Option<int>)
    | ClearAllowanceTx
    | CreateTx(claim: ClaimCreateForm.CreateClaimPayload)
    | AcceptTx(claimId: int)
    | ResolveTx(claimId: int, resolution: Option<string>)
    | CloseTx(claimId: int)

  /** What a UI callback asks `runBlockchainOperation` to do. The claim a
      dispute action works on is the one in the state when it was clicked
      (`None` when there was none). `LoadClaim` takes what `parseInt` gave,
      so `None` there stands for `NaN`. */
  datatype Action =
    | LoadClaim(claimId: Option<int>)
    | RefreshAllowance
    | ApproveAllowance(tokens: Option<int>)
    | ClearAllowance
    | CreateClaim(payload: ClaimCreateForm.CreateClaimPayload)
    | AcceptClaim(claim: Option<Claim>)
    | ResolveClaim(claim: Option<Claim>, resolution: Option<string>)
    | CloseClaim(claim: Option<Claim>)

  /** How a call into the wallet, the node or the SDK ends: with a value, or
      with a rejected promise or a thrown error carrying a reason. Only calls
      that end are modelled. */
  datatype Settled<T> = Fulfilled(value: T) | Rejected(reason: string)

  /** A mined transaction's receipt; only the SDK looks inside it. */
  datatype Receipt = Receipt(handle: int)

  /** The SDK calls an operation can make. `sendAndWaitTx` prepares, signs,
      sends and waits for one transaction from the given wallet;
      `claimIdFromReceipt` reads the new claim's id from a create receipt and
      writes it as decimal text, either of which can throw. */
  datatype Chain = Chain(
    getClaim: Option<int> -> Settled<Claim>,
    getAllowance: string -> Settled<int>,
    sendAndWaitTx: (string, Tx) -> Settled<Receipt>,
    claimIdFromReceipt: Receipt -> Settled<nat>)

  /** The outcome of the wallet's enable handshake. */
  datatype Handshake = Enabled | Refused(reason: string)

  /** Everything outside the component that one operation observes. */
  datatype Env = Env(handshake: Handshake, selectedAddress: Option<string>, chain: Chain)

  /** The errors an operation reports. */
  datatype Error =
    | EnableFailed(reason: string)
    | NoWalletSelected
    | NoCurrentClaim
    | SameWalletAsRequester
    | NotRespondentWallet
    | NotRequesterWallet
    | ChainFailure(reason: string)

  /** What the component does that is visible outside its own state. */
  datatype Event =
    | Loading(on: bool)            // setState({ isLoading })
    | Invoked(wallet: string)      // the operation is called with this wallet
    | TxSent(from: string, tx: Tx) // a transaction is handed to sendAndWaitTx
    | Started(action: Action)      // another operation is started, not awaited
    | Reported(error: Error)       // onError: logged and alerted

  /** What an operation's callback did: its events in order, and the values it
      stored (`None` for a value it left alone). */
  datatype OpResult = OpResult(
    events: seq<Event>,
    claim: Option<Claim>,
    allowance: Option<int>,
    savedClaimId: Option<string>)

  predicate SendsNoTx(events: seq<Event>) {
    forall e :: e in events ==> !e.TxSent?
  }

  /** The events of an operation's callback: it never touches the loading
      flag, never calls another callback, and reports at most one error, as
      its last event. */
  predicate CallbackEvents(events: seq<Event>) {
    (forall i :: 0 <= i < |events| ==> !events[i].Loading? && !events[i].Invoked?)
    && (forall i :: 0 <= i < |events| - 1 ==> !events[i].Reported?)
  }

  function Starts(actions: seq<Action>): (events: seq<Event>)
    ensures |events| == |actions|
    ensures forall i :: 0 <= i < |events| ==> events[i].Started?
  {
    if actions == [] then [] else [Started(actions[0])] + Starts(actions[1..])
  }

  /** An operation that throws `e` before doing anything else. */
  function Refuse(e: Error): (r: OpResult)
    ensures r.events == [Reported(e)]
    ensures r.claim.None? && r.allowance.None? && r.savedClaimId.None?
  {
    OpResult([Reported(e)], None, None, None)
  }

  /** `await sendAndWaitTx(wallet, ..., tx)` followed, when it succeeds, by
      starting the `next` operations. */
  function SendThen(wallet: string, tx: Tx, chain: Chain, next: seq<Action>): (r: OpResult)
    ensures r.events != [] && r.events[0] == TxSent(wallet, tx)
    ensures CallbackEvents(r.events)
    ensures r.claim.None? && r.allowance.None? && r.savedClaimId.None?
  {
    match chain.sendAndWaitTx(wallet, tx)
    case Rejected(reason) => OpResult([TxSent(wallet, tx), Reported(ChainFailure(reason))], None, None, None)
    case Fulfilled(_) => OpResult([TxSent(wallet, tx)] + Starts(next), None, None, None)
  }

  /**
   * The callback each UI handler passes to `runBlockchainOperation`, run with
   * the selected wallet. A failure anywhere ends the callback with one
   * `Reported` event; the callback never touches the loading flag.
   */
  function Operate(action: Action, wallet: string, chain: Chain): (r: OpResult)
    ensures CallbackEvents(r.events)
  {
    match action
    case LoadClaim(claimId) =>
      (match chain.getClaim(claimId)
       case Rejected(reason) => Refuse(ChainFailure(reason))
       case Fulfilled(c) => OpResult([], Some(c), None, None))
    case RefreshAllowance =>
      (match chain.getAllowance(wallet)
       case Rejected(reason) => Refuse(ChainFailure(reason))
       case Fulfilled(a) => OpResult([], None, Some(a), None))
    case ApproveAllowance(tokens) =>
      SendThen(wallet, AllowTx(tokens), chain, [RefreshAllowance])
    case ClearAllowance =>
      SendThen(wallet, ClearAllowanceTx, chain, [RefreshAllowance])
    case CreateClaim(payload) =>
      var tx := CreateTx(payload);
      (match chain.sendAndWaitTx(wallet, tx)
       case Rejected(reason) => OpResult([TxSent(wallet, tx), Reported(ChainFailure(reason))], None, None, None)
       case Fulfilled(receipt) =>
         (match chain.claimIdFromReceipt(receipt)
          case Rejected(reason) => OpResult([TxSent(wallet, tx), Reported(ChainFailure(reason))], None, None, None)
          case Fulfilled(claimId) =>
            OpResult([TxSent(wallet, tx), Started(LoadClaim(Some(claimId))), Started(RefreshAllowance)],
                     None, None, Some(ToDecimalString(claimId)))))
    case AcceptClaim(claim) =>
      if claim.None? then Refuse(NoCurrentClaim)
      else if claim.value.requesterAddress == wallet then Refuse(SameWalletAsRequester)
      else SendThen(wallet, AcceptTx(claim.value.id), chain,
                    [LoadClaim(Some(claim.value.id)), RefreshAllowance])
    case ResolveClaim(claim, resolution) =>
      if claim.None? then Refuse(NoCurrentClaim)
      else if claim.value.respondentAddress != wallet then Refuse(NotRespondentWallet)
      else SendThen(wallet, ResolveTx(claim.value.id, resolution), chain, [LoadClaim(Some(claim.value.id))])
    case CloseClaim(claim) =>
      if claim.None? then Refuse(NoCurrentClaim)
      else if claim.value.requesterAddress != wallet then Refuse(NotRequesterWallet)
      else SendThen(wallet, CloseTx(claim.value.id), chain, [LoadClaim(Some(claim.value.id))])
  }

  /** `getCurrentAccountAddress()` passes the `!walletAddress` test. */
  predicate HasWallet(selectedAddress: Option<string>) {
    selectedAddress.Some? && selectedAddress.value != ""
  }

  /**
   * What one `runBlockchainOperation(operation)` does between raising and
   * lowering the loading flag: a refused handshake or a missing wallet is
   * reported and the operation is not called; otherwise the operation is
   * called with the selected wallet. It is the specification that
   * `App.TryOperation` is proved to meet.
   */
  function Execute(action: Action, env: Env): OpResult {
    match env.handshake
    case Refused(reason) => Refuse(EnableFailed(reason))
    case Enabled =>
      if !HasWallet(env.selectedAddress) then Refuse(NoWalletSelected)
      else
        var r := Operate(action, env.selectedAddress.value, env.chain);
        r.(events := [Invoked(env.selectedAddress.value)] + r.events)
  }

  /** The operation is called exactly when the handshake succeeded and a
      wallet is selected; it is then called once, first, with that wallet. */
  lemma InvokedOnlyWithWallet(action: Action, env: Env)
    ensures var es := Execute(action, env).events;
      (forall i :: 0 <= i < |es| && es[i].Invoked? ==>
         i == 0 && env.handshake.Enabled? && HasWallet(env.selectedAddress)
         && es[i].wallet == env.selectedAddress.value)
      && (env.handshake.Enabled? && HasWallet(env.selectedAddress) ==>
         es[0] == Invoked(env.selectedAddress.value))
  {
    if env.handshake.Enabled? && HasWallet(env.selectedAddress) {
      var r := Operate(action, env.selectedAddress.value, env.chain);
      var es := Execute(action, env).events;
      forall i | 0 < i < |es| ensures !es[i].Invoked? {
        assert es[i] == r.events[i - 1];
      }
    }
  }

  /** Nothing runs without a wallet: the missing wallet is reported, nothing
      is sent and no state changes. */
  lemma NoWalletNoOperation(action: Action, env: Env)
    requires env.handshake.Enabled? && !HasWallet(env.selectedAddress)
    ensures Execute(action, env) == OpResult([Reported(NoWalletSelected)], None, None, None)
  {
  }

  /** An operation never changes the loading flag itself and reports at most
      one error, as its last event. */
  lemma ExecuteKeepsLoadingFlag(action: Action, env: Env)
    ensures var es := Execute(action, env).events;
      (forall i :: 0 <= i < |es| ==> !es[i].Loading?)
      && (forall i :: 0 <= i < |es| - 1 ==> !es[i].Reported?)
  {
    if env.handshake.Enabled? && HasWallet(env.selectedAddress) {
      var r := Operate(action, env.selectedAddress.value, env.chain);
      var es := Execute(action, env).events;
      forall i | 0 < i < |es| ensures es[i] == r.events[i - 1] {
      }
    }
  }

  /** The trace of one `runBlockchainOperation(action)` appended to `before`. */
  function Bracketed(before: seq<Event>, action: Action, env: Env): seq<Event> {
    before + [Loading(true)] + Execute(action, env).events + [Loading(false)]
  }

  /** The events `t` appended to `before` raise the loading flag first and
      lower it last, do not touch it in between, and call an operation only
      with the wallet `env` selects. */
  predicate LoadingDiscipline(before: seq<Event>, t: seq<Event>, env: Env) {
    |t| >= |before| + 2
    && t[|before|] == Loading(true) && t[|t| - 1] == Loading(false)
    && (forall i :: |before| < i < |t| - 1 ==> !t[i].Loading?)
    && (forall i :: |before| <= i < |t| && t[i].Invoked? ==>
          env.handshake.Enabled? && env.selectedAddress == Some(t[i].wallet) && t[i].wallet != "")
  }

  /** Every run of `runBlockchainOperation` keeps that discipline. */
  lemma LoadingBracketsOperation(before: seq<Event>, action: Action, env: Env)
    ensures LoadingDiscipline(before, Bracketed(before, action, env), env)
  {
    var t := Bracketed(before, action, env);
    var es := Execute(action, env).events;
    ExecuteKeepsLoadingFlag(action, env);
    forall i | |before| < i < |t| - 1 ensures !t[i].Loading? {
      assert t[i] == es[i - |before| - 1];
    }
    forall i | |before| <= i < |t| && t[i].Invoked?
      ensures env.handshake.Enabled? && env.selectedAddress == Some(t[i].wallet) && t[i].wallet != ""
    {
      assert t[i] == es[i - |before| - 1];
      InvokedOnlyWithWallet(action, env);
    }
  }

  // ----------------------------------------------------------- role checks

  /** Accepting from the requester's own wallet is refused before any
      transaction is built; from any other wallet the accept transaction is
      sent. */
  lemma AcceptRoleCheck(c: Claim, wallet: string, chain: Chain)
    ensures var r := Operate(AcceptClaim(Some(c)), wallet, chain);
      (c.requesterAddress == wallet ==> r == Refuse(SameWalletAsRequester))
      && (c.requesterAddress != wallet ==> r.events[0] == TxSent(wallet, AcceptTx(c.id)))
  {
  }

  /** Resolving from any wallet but the respondent's is refused before any
      transaction is built; from the respondent's the resolve transaction
      carries the resolution as given. */
  lemma ResolveRoleCheck(c: Claim, resolution: Option<string>, wallet: string, chain: Chain)
    ensures var r := Operate(ResolveClaim(Some(c), resolution), wallet, chain);
      (c.respondentAddress != wallet ==> r == Refuse(NotRespondentWallet))
      && (c.respondentAddress == wallet ==> r.events[0] == TxSent(wallet, ResolveTx(c.id, resolution)))
  {
  }

  /** Closing from any wallet but the requester's is refused before any
      transaction is built; from the requester's the close transaction is
      sent. */
  lemma CloseRoleCheck(c: Claim, wallet: string, chain: Chain)
    ensures var r := Operate(CloseClaim(Some(c)), wallet, chain);
      (c.requesterAddress != wallet ==> r == Refuse(NotRequesterWallet))
      && (c.requesterAddress == wallet ==> r.events[0] == TxSent(wallet, CloseTx(c.id)))
  {
  }

  /** A dispute action clicked while no claim is loaded fails on the `null`
      claim and sends nothing. */
  lemma NoClaimNoTx(action: Action, wallet: string, chain: Chain)
    requires action.AcceptClaim? || action.ResolveClaim? || action.CloseClaim?
    requires action.claim.None?
    ensures Operate(action, wallet, chain) == Refuse(NoCurrentClaim)
    ensures SendsNoTx(Operate(action, wallet, chain).events)
  {
  }

  // ------------------------------------------------------ claim id storage

  /** The operations `componentDidMount` starts: the allowance refresh, and
      loading the claim whose id a previous session stored, if any. It is
      the specification that `App.ComponentDidMount` is proved to meet. */
  function MountActions(storedClaimId: Option<string>): seq<Action> {
    if storedClaimId.Some? && storedClaimId.value != ""
    then [RefreshAllowance, LoadClaim(ParseInt(storedClaimId.value))]
    else [RefreshAllowance]
  }

  /** The id stored after a claim was created is the one loaded after a
      reload; with no stored id, no claim is loaded. */
  lemma StoredClaimIdReloads(claimId: nat)
    ensures MountActions(Some(ToDecimalString(claimId))) == [RefreshAllowance, LoadClaim(Some(claimId))]
    ensures MountActions(None) == [RefreshAllowance]
  {
    ParseIntOfDecimalString(claimId);
  }

  /** A created claim's id is stored, and a reload then loads that very
      claim, the one the creating operation itself goes on to load. */
  lemma CreatedClaimSurvivesReload(payload: ClaimCreateForm.CreateClaimPayload, wallet: string, chain: Chain)
    requires var sent := chain.sendAndWaitTx(wallet, CreateTx(payload));
      sent.Fulfilled? && chain.claimIdFromReceipt(sent.value).Fulfilled?
    ensures var r := Operate(CreateClaim(payload), wallet, chain);
      var claimId := chain.claimIdFromReceipt(chain.sendAndWaitTx(wallet, CreateTx(payload)).value).value;
      r.savedClaimId.Some?
      && Started(LoadClaim(Some(claimId))) in r.events
      && MountActions(r.savedClaimId) == [RefreshAllowance, LoadClaim(Some(claimId))]
  {
    var claimId := chain.claimIdFromReceipt(chain.sendAndWaitTx(wallet, CreateTx(payload)).value).value;
    StoredClaimIdReloads(claimId);
  }

  /** The claim id is stored exactly when the create transaction went
      through and the new id could be read from its receipt; otherwise the
      failure is the callback's last event and the storage is left alone. */
  lemma CreateSavesIdOnlyOnSuccess(payload: ClaimCreateForm.CreateClaimPayload, wallet: string, chain: Chain)
    ensures var r := Operate(CreateClaim(payload), wallet, chain);
      var sent := chain.sendAndWaitTx(wallet, CreateTx(payload));
      (r.savedClaimId.Some? <==> sent.Fulfilled? && chain.claimIdFromReceipt(sent.value).Fulfilled?)
      && r.events != [] && r.events[0] == TxSent(wallet, CreateTx(payload))
      && (r.savedClaimId.None? ==> r.events[|r.events| - 1].Reported?)
  {
  }

  // ------------------------------------------------------------ component

  function Updated<T>(previous: Option<T>, update: Option<T>): Option<T> {
    if update.Some? then update else previous
  }

  class App {
    var isLoading: bool
    var claim: Option<Claim>
    var allowance: Option<int>
    /** The browser's storage entry 'claim_id', which outlives the page. */
    var storedClaimId: Option<string>
    /** Everything the component did that is visible outside it, in order. */
    ghost var trace: seq<Event>

    constructor (storage: Option<string>)
      ensures !isLoading && claim == None && allowance == None
      ensures storedClaimId == storage && trace == []
    {
      isLoading := false;
      claim := None;
      allowance := None;
      storedClaimId := storage;
      trace := [];
    }

    /** `componentDidMount`: starts the operations of `MountActions`. Each
        started `runBlockchainOperation` raises the loading flag before its
        first `await`, so the flag is up when mounting returns; the rest of
        those runs happens later and is not part of this step. */
    method ComponentDidMount()
      modifies this
      ensures trace == old(trace) + Starts(MountActions(storedClaimId))
      ensures isLoading
      ensures claim == old(claim)
      ensures allowance == old(allowance) && storedClaimId == old(storedClaimId)
    {
      trace := trace + [Started(RefreshAllowance)];
      isLoading := true;
      var claimIdStr := storedClaimId;
      if claimIdStr.Some? && claimIdStr.value != "" {
        var claimId := ParseInt(claimIdStr.value);
        trace := trace + [Started(Action.LoadClaim(claimId))];
        assert Starts([RefreshAllowance, Action.LoadClaim(claimId)])
            == [Started(RefreshAllowance)] + Starts([Action.LoadClaim(claimId)]);
      } else {
        assert Starts([RefreshAllowance]) == [Started(RefreshAllowance)] + Starts([]);
      }
    }

    /** The state and trace after one whole `runBlockchainOperation(action)`. */
    twostate predicate Performed(action: Action, env: Env)
      reads this
    {
      var r := Execute(action, env);
      !isLoading
      && trace == Bracketed(old(trace), action, env)
      && claim == Updated(old(claim), r.claim)
      && allowance == Updated(old(allowance), r.allowance)
      && storedClaimId == Updated(old(storedClaimId), r.savedClaimId)
    }

    /**
     * `runBlockchainOperation`: raise the loading flag, enable the wallet,
     * call the operation with the selected wallet, report whatever fails
     * instead of rethrowing it, and lower the flag on every way out.
     */
    method RunBlockchainOperation(action: Action, env: Env)
      modifies this
      ensures LoadingDiscipline(old(trace), trace, env)
      ensures Performed(action, env)
    {
      isLoading := true;
      trace := trace + [Loading(true)];
      TryOperation(action, env);
      isLoading := false;
      trace := trace + [Loading(false)];
      LoadingBracketsOperation(old(trace), action, env);
    }

    /** The `try` and `catch` of `runBlockchainOperation`: a refused handshake
        or a missing wallet is reported; otherwise the operation is called. */
    method TryOperation(action: Action, env: Env)
      modifies this
      ensures var r := Execute(action, env);
        trace == old(trace) + r.events
        && isLoading == old(isLoading)
        && claim == Updated(old(claim), r.claim)
        && allowance == Updated(old(allowance), r.allowance)
        && storedClaimId == Updated(old(storedClaimId), r.savedClaimId)
    {
      if env.handshake.Refused? {
        trace := trace + [Reported(EnableFailed(env.handshake.reason))];
        assert Execute(action, env) == Refuse(EnableFailed(env.handshake.reason));
      } else if !HasWallet(env.selectedAddress) {
        trace := trace + [Reported(NoWalletSelected)];
        assert Execute(action, env) == Refuse(NoWalletSelected);
      } else {
        var walletAddress := env.selectedAddress.value;
        CallOperation(action, walletAddress, env.chain);
      }
    }

    /** The operation called with the selected wallet inside the `try`; what
        it fetched and what it stored are written to the state. */
    method CallOperation(action: Action, walletAddress: string, chain: Chain)
      modifies this
      ensures var r := Operate(action, walletAddress, chain);
        trace == old(trace) + [Invoked(walletAddress)] + r.events
        && isLoading == old(isLoading)
        && claim == Updated(old(claim), r.claim)
        && allowance == Updated(old(allowance), r.allowance)
        && storedClaimId == Updated(old(storedClaimId), r.savedClaimId)
    {
      trace := trace + [Invoked(walletAddress)];
      var r := Operate(action, walletAddress, chain);
      trace := trace + r.events;
      if r.claim.Some? {
        claim := r.claim;
      }
      if r.allowance.Some? {
        allowance := r.allowance;
      }
      if r.savedClaimId.Some? {
        storedClaimId := r.savedClaimId;
      }
    }

    /** `loadClaim`. */
    method LoadClaim(claimId: Option<int>, env: Env)
      modifies this
      ensures Performed(Action.LoadClaim(claimId), env)
    {
      RunBlockchainOperation(Action.LoadClaim(claimId), env);
    }

    /** `refreshCurrentAllowance`. */
    method RefreshCurrentAllowance(env: Env)
      modifies this
      ensures Performed(RefreshAllowance, env)
    {
      RunBlockchainOperation(RefreshAllowance, env);
    }

    /** `onApproveAllowance`. */
    method OnApproveAllowance(tokens: Option<int>, env: Env)
      modifies this
      ensures Performed(ApproveAllowance(tokens), env)
    {
      RunBlockchainOperation(ApproveAllowance(tokens), env);
    }

    /** `onClearAllowance`. */
    method OnClearAllowance(env: Env)
      modifies this
      ensures Performed(ClearAllowance, env)
    {
      RunBlockchainOperation(ClearAllowance, env);
    }

    /** `onCreateClaim`. */
    method OnCreateClaim(payload: ClaimCreateForm.CreateClaimPayload, env: Env)
      modifies this
      ensures Performed(CreateClaim(payload), env)
    {
      RunBlockchainOperation(CreateClaim(payload), env);
    }

    /** `onAcceptClaim`: works on the claim in the state at the click. */
    method OnAcceptClaim(env: Env)
      modifies this
      ensures Performed(AcceptClaim(old(claim)), env)
    {
      RunBlockchainOperation(AcceptClaim(claim), env);
    }

    /** `onResolveClaim`: works on the claim in the state at the click. */
    method OnResolveClaim(resolution: Option<string>, env: Env)
      modifies this
      ensures Performed(ResolveClaim(old(claim), resolution), env)
    {
      RunBlockchainOperation(ResolveClaim(claim, resolution), env);
    }

    /** `onCloseClaim`: works on the claim in the state at the click. */
    method OnCloseClaim(env: Env)
      modifies this
      ensures Performed(CloseClaim(old(claim)), env)
    {
      RunBlockchainOperation(CloseClaim(claim), env);
    }
  }
}
