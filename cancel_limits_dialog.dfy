/** The dialog that cancels UniswapX limit orders: what it shows for each
    cancellation state, and the cancel-transaction parameters it builds from
    the order list.  The state is an input; this component defines no
    transitions between states. */
module CancelLimitsDialog {
  import opened Wrappers
  import opened Currencies

  /** `CancellationState`. */
  datatype CancellationState =
    | NotStarted
    | ReviewingCancellation
    | PendingSignature
    | PendingConfirmation
    | Cancelled

  /** The fields of `UniswapXOrderDetails` that the dialog reads. */
  datatype Order = Order(encodedOrder: string, chainId: ChainId)

  /** The English plural category picked by `<Plural value={n}>`. */
  datatype PluralCategory = One | Other

  function PluralOf(n: nat): PluralCategory {
    if n == 1 then One else Other
  }

  /** The dialog titles, by message. */
  datatype Title =
    | CancelLimits(orderCount: nat)  // "Cancel limit" / "Cancel N limits"
    | ConfirmCancellation
    | CancellationSubmitted
    | CancellationSuccessful

  datatype Icon = SlashIcon | LoaderIcon | SubmittedIcon | ConfirmedIcon

  /** What `useCancelLimitsDialogContent` returns: an optional title and an icon. */
  datatype Content = Content(title: Option<Title>, icon: Icon)

  /** The decimal digit for `d`. */
  function Digit(d: nat): char
    requires d < 10
  {
    ('0' as int + d) as char
  }

  /** `${n}`: the decimal digits of a natural number, with no leading zero. */
  function NatToString(n: nat): (s: string)
    ensures |s| >= 1
    ensures forall i :: 0 <= i < |s| ==> '0' <= s[i] <= '9'
    ensures s[0] == '0' ==> n == 0
    decreases n
  {
    if n < 10 then [Digit(n)] else NatToString(n / 10) + [Digit(n % 10)]
  }

  /** The number a string of decimal digits denotes. */
  function DecimalValue(s: string): nat
    decreases |s|
  {
    if |s| == 0 then 0
    else DecimalValue(s[..|s| - 1]) * 10 + (if '0' <= s[|s| - 1] <= '9' then s[|s| - 1] as int - '0' as int else 0)
  }

  /** Reading `${n}` back as a decimal number gives `n`. */
  lemma {:induction false} NatToStringRoundTrip(n: nat)
    ensures DecimalValue(NatToString(n)) == n
    decreases n
  {
    if n >= 10 {
      NatToStringRoundTrip(n / 10);
      var s := NatToString(n);
      assert s[..|s| - 1] == NatToString(n / 10);
    }
  }

  /** The English text of a title. */
  function TitleText(t: Title): (s: string)
    ensures t.CancelLimits? ==> (s == "Cancel limit" <==> t.orderCount == 1)
    ensures t.CancelLimits? && t.orderCount != 1 ==> s == "Cancel " + NatToString(t.orderCount) + " limits"
  {
    match t
    case CancelLimits(n) =>
      if PluralOf(n) == One then "Cancel limit" else "Cancel " + NatToString(n) + " limits"
    case ConfirmCancellation => "Confirm cancellation"
    case CancellationSubmitted => "Cancellation submitted"
    case CancellationSuccessful => "Cancellation Successful"
  }

  /** The state a content kind belongs to: the inverse of DialogContent. */
  function StateOfContent(c: Content): CancellationState {
    match c.title
    case None => NotStarted
    case Some(CancelLimits(_)) => ReviewingCancellation
    case Some(ConfirmCancellation) => PendingSignature
    case Some(CancellationSubmitted) => PendingConfirmation
    case Some(CancellationSuccessful) => Cancelled
  }

  /** `useCancelLimitsDialogContent(state, orders)`: each state has its own
      content kind (StateOfContent recovers the state), only the review
      title depends on the orders (through their count), and the slash icon
      is used exactly by the review and by the default case. */
  function DialogContent(state: CancellationState, orders: seq<Order>): (r: Content)
    ensures StateOfContent(r) == state
    ensures r.title.None? <==> state == NotStarted
    ensures r.icon == SlashIcon <==> state in {NotStarted, ReviewingCancellation}
    ensures state == ReviewingCancellation ==> r.title == Some(CancelLimits(|orders|))
    ensures state == PendingSignature ==> r.icon == LoaderIcon
    ensures state == PendingConfirmation ==> r.icon == SubmittedIcon
    ensures state == Cancelled ==> r.icon == ConfirmedIcon
  {
    match state
    case ReviewingCancellation => Content(Some(CancelLimits(|orders|)), SlashIcon)
    case PendingSignature => Content(Some(ConfirmCancellation), LoaderIcon)
    case PendingConfirmation => Content(Some(CancellationSubmitted), SubmittedIcon)
    case Cancelled => Content(Some(CancellationSuccessful), ConfirmedIcon)
    case _ => Content(None, SlashIcon)
  }

  /** Different states never share a content kind, whatever the orders. */
  lemma DialogContentInjective(s1: CancellationState, o1: seq<Order>, s2: CancellationState, o2: seq<Order>)
    requires DialogContent(s1, o1) == DialogContent(s2, o2)
    ensures s1 == s2
  {
  }

  /** `orders.map((order) => order.encodedOrder)`. */
  function EncodedOrders(orders: seq<Order>): (r: seq<string>)
    ensures |r| == |orders|
    ensures forall i :: 0 <= i < |orders| ==> r[i] == orders[i].encodedOrder
  {
    if |orders| == 0 then [] else [orders[0].encodedOrder] + EncodedOrders(orders[1..])
  }

  /** The argument of `useCreateCancelTransactionRequest`. */
  datatype CancelTransactionParams = CancelTransactionParams(encodedOrders: seq<string>, chainId: Option<ChainId>)

  /** `cancelTransactionParams`: the encoded orders in order, scoped to the
      first order's chain (absent for an empty list). */
  function CancelTransactionParamsOf(orders: seq<Order>): (r: CancelTransactionParams)
    ensures |r.encodedOrders| == |orders|
    ensures forall i :: 0 <= i < |orders| ==> r.encodedOrders[i] == orders[i].encodedOrder
    ensures r.chainId.None? <==> |orders| == 0
    ensures r.chainId.Some? ==> r.chainId.value == orders[0].chainId
  {
    CancelTransactionParams(EncodedOrders(orders), if |orders| == 0 then None else Some(orders[0].chainId))
  }

  /** The gas result of `useTransactionGasFee`, reduced to its `value`. */
  datatype GasFeeResult = GasFeeResult(value: Option<string>)

  /** The line under the modal's title. */
  datatype Footer =
    | ViewOnExplorer(chainId: ChainId, txHash: string)  // the explorer link for the transaction
    | ProceedInWallet

  /** What `CancelLimitsDialog` renders. */
  datatype View =
    | ModalView(icon: Icon, title: Option<Title>, footer: Footer)
    | DialogView(icon: Icon, title: Option<Title>, description: PluralCategory,
                 networkCost: Option<string>, proceedDisabled: bool)
    | NoView

  /** A render that throws: `orders[0].chainId` on an empty order list. */
  datatype RenderError = NoFirstOrder

  /** `cancelSubmitted`: the cancel was sent and its hash is a non-empty string. */
  predicate CancelSubmitted(state: CancellationState, cancelTxHash: Option<string>) {
    (state == Cancelled || state == PendingConfirmation) && cancelTxHash.Some? && cancelTxHash.value != ""
  }

  /** `gasEstimate?.value` is truthy. */
  predicate HasGasEstimate(gasEstimate: Option<GasFeeResult>) {
    gasEstimate.Some? && gasEstimate.value.value.Some? && gasEstimate.value.value.value != ""
  }

  /** `CancelLimitsDialog`: the modal while the cancel is being signed,
      confirmed or is done, the review dialog while reviewing, nothing
      before.  The gas estimate is an input: it is computed from
      CancelTransactionParamsOf(orders) by hooks outside this model. */
  function RenderDialog(orders: seq<Order>, state: CancellationState, cancelTxHash: Option<string>,
                        gasEstimate: Option<GasFeeResult>): (r: Result<View, RenderError>)
    ensures r.Failure? <==> CancelSubmitted(state, cancelTxHash) && |orders| == 0
    ensures r.Success? ==>
      && (r.value.ModalView? <==> state in {PendingSignature, PendingConfirmation, Cancelled})
      && (r.value.DialogView? <==> state == ReviewingCancellation)
      && (r.value.NoView? <==> state == NotStarted)
    ensures r.Success? && r.value.ModalView? ==>
      && Content(r.value.title, r.value.icon) == DialogContent(state, orders)
      && (r.value.footer.ViewOnExplorer? <==> CancelSubmitted(state, cancelTxHash))
      && (r.value.footer.ViewOnExplorer? ==>
            r.value.footer == ViewOnExplorer(orders[0].chainId, cancelTxHash.value))
    ensures r.Success? && r.value.DialogView? ==>
      && Content(r.value.title, r.value.icon) == DialogContent(state, orders)
      && !r.value.proceedDisabled
      && r.value.description == PluralOf(|orders|)
      && (r.value.networkCost.Some? <==> HasGasEstimate(gasEstimate))
      && (r.value.networkCost.Some? ==> r.value.networkCost == gasEstimate.value.value)
  {
    var content := DialogContent(state, orders);
    if state in [PendingSignature, PendingConfirmation, Cancelled] then
      if CancelSubmitted(state, cancelTxHash) then
        if |orders| == 0 then Failure(NoFirstOrder)
        else Success(ModalView(content.icon, content.title, ViewOnExplorer(orders[0].chainId, cancelTxHash.value)))
      else Success(ModalView(content.icon, content.title, ProceedInWallet))
    else if state == ReviewingCancellation then
      var networkCost := if HasGasEstimate(gasEstimate) then gasEstimate.value.value else None;
      Success(DialogView(content.icon, content.title, PluralOf(|orders|), networkCost,
                         state != ReviewingCancellation))
    else
      Success(NoView)
  }
}
