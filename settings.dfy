/** The settings page (`/settings`): the buyer record with the card on
    file, and the payment-method modal that embeds the payment form in add
    or update mode. */
module Settings {
  import opened Basics
  import opened Backend
  import opened PaymentOptions

  /** The calls the page makes to the billing backend. `CreateBuyer` posts
      `{ uid: userData?.uid }`, which may be undefined. */
  datatype BillingRequest = GetBuyer(buyerUid: string) | CreateBuyer(postedUid: Option<string>)

  /** `isEditingPayment`: a card is on file. */
  predicate HasCard(buyer: Option<BuyerRecord>) {
    buyer.Some? && buyer.value.card.Some?
  }

  /** The options of the embedded form: update mode exactly when a card is
      on file. */
  function FormOptions(buyer: Option<BuyerRecord>): (o: CheckoutOptions)
    ensures HasCard(buyer) <==> o.submitButtonText == "Update"
    ensures HasCard(buyer) <==> o.headlineText == "Update Your Payment Method"
    ensures !HasCard(buyer) <==> o == CheckoutOptions("Add Your Payment Method", "Add Payment")
  {
    OptionsFor(HasCard(buyer))
  }

  /** `paymentURL`: the embed URL with the encoded options, or null when the
      buyer record has no (or an empty) embed URL. */
  function PaymentUrl(buyer: Option<BuyerRecord>, encode: CheckoutOptions -> string): (u: Option<string>)
    ensures u.None? <==> buyer.None? || !Truthy(buyer.value.paymentMethodEmbedUrl)
    ensures u.Some? ==> u.value == EmbedUrl(buyer.value.paymentMethodEmbedUrl.value, encode(FormOptions(buyer)))
    ensures u.Some? ==> Truthy(u)
  {
    if buyer.Some? && Truthy(buyer.value.paymentMethodEmbedUrl)
    then Some(EmbedUrl(buyer.value.paymentMethodEmbedUrl.value, encode(FormOptions(buyer))))
    else None
  }

  /** The React state of the settings page; `userData` and `accessToken`
      come from the auth context. */
  class SettingsPage {
    const userData: Option<UserRecord>
    const accessToken: Option<string>
    var buyerData: Option<BuyerRecord>
    var loadingBuyerData: bool
    var showPaymentModal: bool
    var isLoadingPaymentFlow: bool

    constructor (userData: Option<UserRecord>, accessToken: Option<string>)
      ensures this.userData == userData && this.accessToken == accessToken
      ensures buyerData == None && !loadingBuyerData && !showPaymentModal && !isLoadingPaymentFlow
    {
      this.userData := userData;
      this.accessToken := accessToken;
      buyerData := None;
      loadingBuyerData := false;
      showPaymentModal := false;
      isLoadingPaymentFlow := false;
    }

    /** `userData?.isBuyer` */
    predicate IsBuyer() {
      userData.Some? && userData.value.isBuyer
    }

    /** The guard of `fetchBuyer`: user data with a uid, flagged as a buyer. */
    predicate MayFetchBuyer() {
      userData.Some? && Truthy(userData.value.uid) && userData.value.isBuyer
    }

    /** The payment modal is on screen (`showPaymentModal && paymentURL`):
        whatever the options encode to, exactly when the modal is open and
        the buyer record has a non-empty embed URL. */
    predicate ModalDisplayed(encode: CheckoutOptions -> string)
      reads this
      ensures ModalDisplayed(encode) <==>
        showPaymentModal && buyerData.Some? && Truthy(buyerData.value.paymentMethodEmbedUrl)
    {
      showPaymentModal && PaymentUrl(buyerData, encode).Some?
    }

    /** `fetchBuyer`, given what `/transactions/get-buyer` answered. A failed
        call keeps the buyer record the page already had. */
    method FetchBuyer(response: Response<BuyerRecord>) returns (sent: seq<BillingRequest>)
      modifies this
      ensures !MayFetchBuyer() ==> sent == [] && unchanged(this)
      ensures MayFetchBuyer() ==>
        && sent == [GetBuyer(userData.value.uid.value)]
        && !loadingBuyerData
        && buyerData == (if response.Ok? then Some(response.body) else old(buyerData))
      ensures showPaymentModal == old(showPaymentModal) && isLoadingPaymentFlow == old(isLoadingPaymentFlow)
    {
      sent := [];
      if userData.None? || !Truthy(userData.value.uid) || !userData.value.isBuyer {
        return;
      }
      loadingBuyerData := true;
      sent := [GetBuyer(userData.value.uid.value)];
      if response.Ok? {
        buyerData := Some(response.body);
      }
      loadingBuyerData := false;
    }

    /** `handleAddPayment`, given what `/transactions/create-buyer` and
        `/transactions/get-buyer` would answer. A non-buyer is created as a
        buyer first; the follow-up `fetchBuyer` still sees the old
        `isBuyer` flag, so it sends nothing and the buyer record is not
        refreshed. */
    method AddPayment(create: Response<()>, fetch: Response<BuyerRecord>) returns (sent: seq<BillingRequest>)
      modifies this
      ensures IsBuyer() ==>
        && sent == [] && showPaymentModal
        && buyerData == old(buyerData) && loadingBuyerData == old(loadingBuyerData)
        && isLoadingPaymentFlow == old(isLoadingPaymentFlow)
      ensures !IsBuyer() ==>
        && sent == [CreateBuyer(if userData.Some? then userData.value.uid else None)]
        && !isLoadingPaymentFlow
        && buyerData == old(buyerData) && loadingBuyerData == old(loadingBuyerData)
        && showPaymentModal == (create.Ok? || old(showPaymentModal))
    {
      sent := [];
      if !IsBuyer() {
        isLoadingPaymentFlow := true;
        sent := [CreateBuyer(if userData.Some? then userData.value.uid else None)];
        if !create.Ok? {
          isLoadingPaymentFlow := false;
          return;
        }
        var fetched := FetchBuyer(fetch);
        sent := sent + fetched;
        isLoadingPaymentFlow := false;
      }
      showPaymentModal := true;
    }

    /** `handleAddPayment` as evidently intended: after creating the buyer,
        the new buyer record is fetched by uid instead of behind the stale
        `isBuyer` flag, so the modal can show the form. */
    method AddPaymentRefreshingBuyer(create: Response<()>, fetch: Response<BuyerRecord>)
      returns (sent: seq<BillingRequest>)
      modifies this
      ensures IsBuyer() ==>
        && sent == [] && showPaymentModal
        && buyerData == old(buyerData) && loadingBuyerData == old(loadingBuyerData)
        && isLoadingPaymentFlow == old(isLoadingPaymentFlow)
      ensures !IsBuyer() ==>
        && sent == [CreateBuyer(if userData.Some? then userData.value.uid else None)]
                  + (if create.Ok? && userData.Some? && Truthy(userData.value.uid)
                     then [GetBuyer(userData.value.uid.value)] else [])
        && !isLoadingPaymentFlow
        && showPaymentModal == (create.Ok? || old(showPaymentModal))
      ensures !IsBuyer() && !(create.Ok? && userData.Some? && Truthy(userData.value.uid)) ==>
        buyerData == old(buyerData) && loadingBuyerData == old(loadingBuyerData)
      ensures !IsBuyer() && create.Ok? && userData.Some? && Truthy(userData.value.uid) ==>
        && !loadingBuyerData
        && buyerData == (if fetch.Ok? then Some(fetch.body) else old(buyerData))
      ensures !IsBuyer() && create.Ok? && userData.Some? && Truthy(userData.value.uid)
              && fetch.Ok? && Truthy(fetch.body.paymentMethodEmbedUrl) ==>
        forall encode :: ModalDisplayed(encode)
    {
      sent := [];
      if !IsBuyer() {
        isLoadingPaymentFlow := true;
        sent := [CreateBuyer(if userData.Some? then userData.value.uid else None)];
        if !create.Ok? {
          isLoadingPaymentFlow := false;
          return;
        }
        if userData.Some? && Truthy(userData.value.uid) {
          loadingBuyerData := true;
          sent := sent + [GetBuyer(userData.value.uid.value)];
          if fetch.Ok? {
            buyerData := Some(fetch.body);
          }
          loadingBuyerData := false;
        }
        isLoadingPaymentFlow := false;
      }
      showPaymentModal := true;
    }

    /** `handleEditPayment` */
    method EditPayment()
      modifies this
      ensures showPaymentModal
      ensures buyerData == old(buyerData) && loadingBuyerData == old(loadingBuyerData)
      ensures isLoadingPaymentFlow == old(isLoadingPaymentFlow)
    {
      showPaymentModal := true;
    }

    /** `closePaymentModal` */
    method ClosePaymentModal()
      modifies this
      ensures !showPaymentModal
      ensures forall encode :: !ModalDisplayed(encode)
      ensures buyerData == old(buyerData) && loadingBuyerData == old(loadingBuyerData)
      ensures isLoadingPaymentFlow == old(isLoadingPaymentFlow)
    {
      showPaymentModal := false;
    }
  }

  /** A user who is not yet a buyer presses "Add Payment Method"; creating
      the buyer succeeds and the backend would serve a buyer record with an
      embed URL, yet the modal does not appear: `fetchBuyer` is never sent,
      so there is no payment URL. */
  method FirstPaymentMethodModalHidden(user: UserRecord, token: string, encode: CheckoutOptions -> string)
    returns (displayed: bool, modalOpen: bool)
    requires !user.isBuyer
    ensures modalOpen && !displayed
  {
    var page := new SettingsPage(Some(user), Some(token));
    var _ := page.AddPayment(Ok(()), Ok(BuyerRecord(Some("https://pay.example/embed"), None)));
    modalOpen := page.showPaymentModal;
    displayed := page.ModalDisplayed(encode);
  }

  /** The same press with the refreshing handler puts the form on screen. */
  method FirstPaymentMethodModalShown(user: UserRecord, token: string, encode: CheckoutOptions -> string)
    returns (displayed: bool)
    requires !user.isBuyer && Truthy(user.uid)
    ensures displayed
  {
    var page := new SettingsPage(Some(user), Some(token));
    var _ := page.AddPaymentRefreshingBuyer(Ok(()), Ok(BuyerRecord(Some("https://pay.example/embed"), None)));
    displayed := page.ModalDisplayed(encode);
  }
}
