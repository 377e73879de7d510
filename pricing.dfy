/** The credit-pack pricing page (`/pricing`): a fixed catalogue of three
    one-time plans, the purchase request, and the flow that either charges
    a buyer's card on file or opens the embedded checkout to add or update
    a payment method. */
module Pricing {
  import opened Basics
  import opened Backend
  import opened PaymentOptions

  datatype Plan = Plan(
    name: string,
    price: nat,
    credits: string,
    features: seq<string>,
    actionLabel: string,
    recommended: bool)

  /** `plans` */
  const PLANS: seq<Plan> := [
    Plan("Starter", 10, "1,000 Credits", ["Basic data export", "Limited support"], "Buy Now", false),
    Plan("Growth", 50, "6,000 Credits",
         ["Everything in Starter", "Enhanced support", "Extended data export"], "Buy Now", true),
    Plan("Ultimate", 200, "30,000 Credits",
         ["Everything in Growth", "Priority support", "White-glove setup assistance"], "Buy Now", false)
  ]

  /** One entry of `items` in the body posted to `/transactions/purchase`. */
  datatype LineItem = LineItem(name: string, description: string, amountInCents: int, quantity: int)

  /** The calls the page makes to the billing backend. */
  datatype BillingRequest = CreateBuyer(uid: string) | Purchase(uid: string, items: seq<LineItem>)

  /** The `items` array `commitPurchase` sends for a plan: one line item,
      named after the plan, described by its credits, charging the plan's
      dollar price in cents, quantity one. */
  function PurchaseItems(plan: Plan): (items: seq<LineItem>)
    ensures |items| == 1
    ensures items[0].name == plan.name + " Credits" && items[0].description == plan.credits
    ensures items[0].amountInCents == 100 * plan.price && items[0].quantity == 1
  {
    [LineItem(plan.name + " Credits", plan.credits, plan.price * 100, 1)]
  }

  /** The catalogue: Starter $10, Growth $50, Ultimate $200, in that order,
      and Growth is the one recommended plan. */
  lemma Catalogue()
    ensures |PLANS| == 3
    ensures PLANS[0].name == "Starter" && PLANS[0].price == 10 && PLANS[0].credits == "1,000 Credits"
    ensures PLANS[1].name == "Growth" && PLANS[1].price == 50 && PLANS[1].credits == "6,000 Credits"
    ensures PLANS[2].name == "Ultimate" && PLANS[2].price == 200 && PLANS[2].credits == "30,000 Credits"
    ensures forall i :: 0 <= i < |PLANS| ==> (PLANS[i].recommended <==> PLANS[i].name == "Growth")
    ensures forall i :: 0 <= i < |PLANS| ==> PLANS[i].actionLabel == "Buy Now"
  {
  }

  /** Plan names identify plans, which is what the per-card flags rely on. */
  lemma CatalogueNamesDistinct()
    ensures forall i, j :: 0 <= i < |PLANS| && 0 <= j < |PLANS| && PLANS[i].name == PLANS[j].name ==> i == j
  {
  }

  /** What each catalogue plan charges: 1000, 5000 and 20000 cents, under
      three different item names. */
  lemma CatalogueCharges()
    ensures PurchaseItems(PLANS[0])[0].amountInCents == 1000
    ensures PurchaseItems(PLANS[1])[0].amountInCents == 5000
    ensures PurchaseItems(PLANS[2])[0].amountInCents == 20000
    ensures forall i, j :: 0 <= i < |PLANS| && 0 <= j < |PLANS| && i != j ==>
      PurchaseItems(PLANS[i])[0].name != PurchaseItems(PLANS[j])[0].name
  {
  }

  /** The `loading` prop of one plan's card. The cards compare names, and
      between catalogue plans that marks the selected plan itself. */
  predicate CardLoading(loading: bool, selected: Option<Plan>, plan: Plan)
    ensures CardLoading(loading, selected, plan) && plan in PLANS && selected.Some? && selected.value in PLANS ==>
      loading && plan == selected.value
  {
    CatalogueNamesDistinct();
    loading && selected.Some? && plan.name == selected.value.name
  }

  /** The `purchaseComplete` prop of one plan's card, keyed by name like
      `CardLoading`. */
  predicate CardComplete(purchaseComplete: bool, selected: Option<Plan>, plan: Plan)
    ensures CardComplete(purchaseComplete, selected, plan) && plan in PLANS && selected.Some? && selected.value in PLANS ==>
      purchaseComplete && plan == selected.value
  {
    CatalogueNamesDistinct();
    purchaseComplete && selected.Some? && plan.name == selected.value.name
  }

  /** At most one catalogue card shows the spinner, and at most one has its
      `purchaseComplete` prop set (the card then reads "Success!"), whatever
      the page state. */
  lemma AtMostOneCardMarked(loading: bool, purchaseComplete: bool, selected: Option<Plan>, i: nat, j: nat)
    requires i < |PLANS| && j < |PLANS|
    ensures CardLoading(loading, selected, PLANS[i]) && CardLoading(loading, selected, PLANS[j]) ==> i == j
    ensures CardComplete(purchaseComplete, selected, PLANS[i]) && CardComplete(purchaseComplete, selected, PLANS[j]) ==> i == j
  {
    CatalogueNamesDistinct();
  }

  /** `${buyer.payment_method_embed_url}`: a missing URL is spelt "undefined". */
  function TemplateText(s: Option<string>): string {
    if s.Some? then s.value else "undefined"
  }

  /** The React state of the pricing page. The signed-in user's token, uid
      and buyer flag come from the auth context; `encode` stands for
      `btoa(JSON.stringify(options))`. */
  class PricingPage {
    const accessToken: Option<string>
    const uid: Option<string>
    const isBuyer: bool
    const encode: CheckoutOptions -> string
    var selectedPlan: Option<Plan>
    var loading: bool
    var purchaseComplete: bool
    var showCheckoutPage: bool
    var paymentURL: Option<string>
    var isUpdatingPayment: bool

    constructor (accessToken: Option<string>, uid: Option<string>, isBuyer: bool, encode: CheckoutOptions -> string)
      ensures this.accessToken == accessToken && this.uid == uid && this.isBuyer == isBuyer && this.encode == encode
      ensures selectedPlan == None && !loading && !purchaseComplete
      ensures !showCheckoutPage && paymentURL == None && !isUpdatingPayment
    {
      this.accessToken := accessToken;
      this.uid := uid;
      this.isBuyer := isBuyer;
      this.encode := encode;
      selectedPlan := None;
      loading := false;
      purchaseComplete := false;
      showCheckoutPage := false;
      paymentURL := None;
      isUpdatingPayment := false;
    }

    /** `accessToken && uid` */
    predicate SignedIn() {
      Truthy(accessToken) && Truthy(uid)
    }

    /** The checkout view is rendered (`showCheckoutPage && paymentURL && selectedPlan`). */
    predicate CheckoutVisible()
      reads this
    {
      showCheckoutPage && Truthy(paymentURL) && selectedPlan.Some?
    }

    /** The checkout's "Complete Purchase" button is disabled. */
    predicate CompleteButtonDisabled()
      reads this
    {
      loading || purchaseComplete
    }

    /** The checkout was opened for the embed URL of `buyer`, in update or
        first-time mode. */
    predicate CheckoutOpened(updating: bool, buyer: BuyerRecord)
      reads this
    {
      && showCheckoutPage
      && isUpdatingPayment == updating
      && paymentURL == Some(EmbedUrl(TemplateText(buyer.paymentMethodEmbedUrl), encode(OptionsFor(updating))))
    }

    /** Once the checkout is opened for a buyer record, it is on screen as
        long as a plan is selected: the embed URL is never empty, even when
        the record has no embed URL. */
    lemma OpenedCheckoutIsVisible(updating: bool, buyer: BuyerRecord)
      requires CheckoutOpened(updating, buyer) && selectedPlan.Some?
      ensures CheckoutVisible()
    {
    }

    /** `createOrUpdateBuyerAndShowCheckout(plan, isFirstTime)`, given what
        `/transactions/create-buyer` answered. */
    method CreateOrUpdateBuyerAndShowCheckout(plan: Plan, isFirstTime: bool, buyer: Response<BuyerRecord>)
      returns (sent: seq<BillingRequest>)
      modifies this
      ensures !SignedIn() ==> sent == [] && unchanged(this)
      ensures SignedIn() ==>
        && sent == [CreateBuyer(uid.value)]
        && !loading && !purchaseComplete && selectedPlan == old(selectedPlan)
      ensures SignedIn() && buyer.Ok? ==> CheckoutOpened(!isFirstTime, buyer.body)
      ensures SignedIn() && !buyer.Ok? ==>
        && showCheckoutPage == old(showCheckoutPage)
        && paymentURL == old(paymentURL)
        && isUpdatingPayment == old(isUpdatingPayment)
    {
      sent := [];
      if !SignedIn() {
        return;
      }
      loading := true;
      purchaseComplete := false;
      sent := [CreateBuyer(uid.value)];
      if buyer.Ok? {
        var options := OptionsFor(!isFirstTime);
        isUpdatingPayment := !isFirstTime;
        paymentURL := Some(EmbedUrl(TemplateText(buyer.body.paymentMethodEmbedUrl), encode(options)));
        showCheckoutPage := true;
      }
      loading := false;
    }

    /** `commitPurchase(plan)`, given what `/transactions/purchase` answered.
        Reports whether the purchase went through. */
    method CommitPurchase(plan: Plan, purchase: Response<()>) returns (ok: bool, sent: seq<BillingRequest>)
      modifies this
      ensures !SignedIn() ==> !ok && sent == [] && unchanged(this)
      ensures SignedIn() ==>
        && sent == [Purchase(uid.value, PurchaseItems(plan))]
        && ok == purchase.Ok?
        && !loading
        && selectedPlan == old(selectedPlan)
        && paymentURL == old(paymentURL) && isUpdatingPayment == old(isUpdatingPayment)
      ensures SignedIn() && ok ==> purchaseComplete && !showCheckoutPage && CompleteButtonDisabled()
      ensures SignedIn() && !ok ==> !purchaseComplete && showCheckoutPage == old(showCheckoutPage)
    {
      if !SignedIn() {
        return false, [];
      }
      var items := PurchaseItems(plan);
      loading := true;
      purchaseComplete := false;
      sent := [Purchase(uid.value, items)];
      if purchase.Ok? {
        showCheckoutPage := false;
        purchaseComplete := true;
        ok := true;
      } else {
        ok := false;
      }
      loading := false;
    }

    /** `handleBuyNow(plan)`: a buyer is charged first and sent to checkout
        in update mode only if that fails; anyone else goes to checkout in
        first-time mode. `purchase` and `buyer` are what the two endpoints
        would answer. */
    method BuyNow(plan: Plan, purchase: Response<()>, buyer: Response<BuyerRecord>) returns (sent: seq<BillingRequest>)
      modifies this
      ensures old(loading) ==> sent == [] && unchanged(this)
      ensures !old(loading) ==> selectedPlan == Some(plan) && !loading
      ensures !old(loading) && !SignedIn() ==>
        && sent == [] && !purchaseComplete
        && showCheckoutPage == old(showCheckoutPage) && paymentURL == old(paymentURL)
        && isUpdatingPayment == old(isUpdatingPayment)
      ensures !old(loading) && SignedIn() && isBuyer && purchase.Ok? ==>
        && sent == [Purchase(uid.value, PurchaseItems(plan))]
        && purchaseComplete && !showCheckoutPage
        && paymentURL == old(paymentURL) && isUpdatingPayment == old(isUpdatingPayment)
      ensures !old(loading) && SignedIn() && isBuyer && !purchase.Ok? ==>
        && sent == [Purchase(uid.value, PurchaseItems(plan)), CreateBuyer(uid.value)]
        && !purchaseComplete
      ensures !old(loading) && SignedIn() && !isBuyer ==>
        sent == [CreateBuyer(uid.value)] && !purchaseComplete
      ensures !old(loading) && SignedIn() && (!isBuyer || !purchase.Ok?) && buyer.Ok? ==>
        CheckoutOpened(isBuyer, buyer.body) && CheckoutVisible()
      ensures !old(loading) && SignedIn() && (!isBuyer || !purchase.Ok?) && !buyer.Ok? ==>
        && showCheckoutPage == old(showCheckoutPage) && paymentURL == old(paymentURL)
        && isUpdatingPayment == old(isUpdatingPayment)
    {
      sent := [];
      if loading {
        return;
      }
      selectedPlan := Some(plan);
      purchaseComplete := false;
      loading := true;
      if !SignedIn() {
        loading := false;
        return;
      }
      if isBuyer {
        var purchaseSuccess, s := CommitPurchase(plan, purchase);
        sent := s;
        if !purchaseSuccess {
          s := CreateOrUpdateBuyerAndShowCheckout(plan, false, buyer);
          sent := sent + s;
        }
      } else {
        sent := CreateOrUpdateBuyerAndShowCheckout(plan, true, buyer);
      }
      if buyer.Ok? && (!isBuyer || !purchase.Ok?) {
        PaymentOptions.EmbedUrlNonEmpty(TemplateText(buyer.body.paymentMethodEmbedUrl),
                                        encode(OptionsFor(isBuyer)));
      }
      loading := false;
    }

    /** `handleCompletePurchase`: charge the selected plan, unless a request
        is in flight or nothing is selected. */
    method CompletePurchase(purchase: Response<()>) returns (sent: seq<BillingRequest>)
      modifies this
      ensures old(loading) || old(selectedPlan).None? ==> sent == [] && unchanged(this)
      ensures !old(loading) && old(selectedPlan).Some? && SignedIn() ==>
        && sent == [Purchase(uid.value, PurchaseItems(old(selectedPlan).value))]
        && !loading && selectedPlan == old(selectedPlan)
        && purchaseComplete == purchase.Ok?
        && showCheckoutPage == (old(showCheckoutPage) && !purchase.Ok?)
        && paymentURL == old(paymentURL) && isUpdatingPayment == old(isUpdatingPayment)
      ensures !old(loading) && old(selectedPlan).Some? && !SignedIn() ==> sent == [] && unchanged(this)
    {
      sent := [];
      if loading {
        return;
      }
      if selectedPlan.None? {
        return;
      }
      var _, s := CommitPurchase(selectedPlan.value, purchase);
      sent := s;
    }

    /** The checkout's close button. */
    method CloseCheckout()
      modifies this
      ensures !showCheckoutPage && selectedPlan == None && !purchaseComplete
      ensures !CheckoutVisible()
      ensures loading == old(loading) && paymentURL == old(paymentURL) && isUpdatingPayment == old(isUpdatingPayment)
    {
      showCheckoutPage := false;
      selectedPlan := None;
      purchaseComplete := false;
    }
  }
}
