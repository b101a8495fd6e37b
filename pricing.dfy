/** The plan cards of the pricing page (src/pages/Pricing.tsx). */
module Pricing {
  import opened Common
  import Auth
  import Subscription

  /** `handleSelectPlan`: visitors are sent to sign up, signed-in users to
      the checkout, both carrying the plan id as the `plan` parameter. */
  function SelectPlanTarget(isAuthenticated: bool, planId: string): (r: string)
    ensures !isAuthenticated ==> r == "/signup?plan=" + planId
    ensures isAuthenticated ==> r == "/checkout?plan=" + planId
  {
    (if isAuthenticated then "/checkout" else "/signup") + "?plan=" + planId
  }

  /** `isCurrentPlan`: the signed-in account's plan id is the card's id. */
  predicate IsCurrentPlan(user: Option<Auth.UserProfile>, planId: string)
  {
    user.Some? && user.value.subscriptionPlan == Some(planId)
  }

  /** The card's button is disabled on the current plan and while a payment
      is being processed. */
  function ButtonDisabled(isCurrent: bool, isProcessingPayment: bool): (r: bool)
    ensures !r <==> !isCurrent && !isProcessingPayment
  {
    isCurrent || isProcessingPayment
  }

  function ButtonLabel(isCurrent: bool, planId: string): (r: string)
    ensures r == "Plano atual" <==> isCurrent
    ensures r == "Usar plano gratuito" <==> !isCurrent && planId == "free"
    ensures r == "Assinar agora" <==> !isCurrent && planId != "free"
  {
    if isCurrent then "Plano atual" else if planId == "free" then "Usar plano gratuito" else "Assinar agora"
  }

  /** The price line: "Grátis" for a free plan, otherwise "R$ " and the price. */
  function PriceText(price: int): (r: string)
    ensures r == "Grátis" <==> price == 0
    ensures price != 0 ==> |r| > 3 && r[..3] == "R$ " && r[3..] == IntToString(price)
  {
    if price == 0 then "Grátis"
    else
      var r := "R$ " + IntToString(price);
      assert r[0] == 'R';
      r
  }

  /** At most one card is marked current, because plan ids are distinct. */
  lemma AtMostOneCurrentCard(user: Option<Auth.UserProfile>)
    ensures forall i, j :: 0 <= i < j < |Subscription.AvailablePlans| ==>
      !(IsCurrentPlan(user, Subscription.AvailablePlans[i].id) && IsCurrentPlan(user, Subscription.AvailablePlans[j].id))
  {
    Subscription.CatalogueShape();
  }

  /** The card marked current is the plan the subscription context reports
      as current. */
  lemma CurrentCardIsCurrentPlan(user: Option<Auth.UserProfile>, k: nat)
    requires k < |Subscription.AvailablePlans|
    requires IsCurrentPlan(user, Subscription.AvailablePlans[k].id)
    ensures Subscription.CurrentPlanOf(user) == Some(Subscription.AvailablePlans[k])
  {
    Subscription.CatalogueShape();
    var p := Subscription.AvailablePlans[k];
    var f := Subscription.FindPlan(p.id);
    assert f.Some? && f.value in Subscription.AvailablePlans && f.value.id == p.id;
    var j :| 0 <= j < |Subscription.AvailablePlans| && Subscription.AvailablePlans[j] == f.value;
  }

  /** After a successful subscription the chosen card shows "Plano atual"
      and cannot be clicked again. */
  lemma SubscribedCardIsCurrent(u: Auth.UserProfile, planId: string, endDate: int, processing: bool)
    requires Subscription.FindPlan(planId).Some?
    ensures var user := Subscription.AfterSubscribe(Some(u), planId, endDate);
      IsCurrentPlan(user, planId) &&
      ButtonLabel(IsCurrentPlan(user, planId), planId) == "Plano atual" &&
      ButtonDisabled(IsCurrentPlan(user, planId), processing)
  {
    Subscription.SubscribeOutcome(u, planId, endDate);
  }

  /** Cancelling keeps the plan id, so the canceled plan's card still shows
      "Plano atual" and stays disabled. */
  lemma CanceledCardStaysCurrent(u: Auth.UserProfile, planId: string)
    requires u.subscriptionStatus == Auth.Active && u.subscriptionPlan == Some(planId)
    ensures IsCurrentPlan(Subscription.AfterCancel(Some(u)), planId)
    ensures Subscription.AfterCancel(Some(u)).value.subscriptionStatus == Auth.Canceled
  {
    Subscription.CancelOutcome(u);
  }

  /** An account without a plan id (such as a new trial account) is on the
      free plan as far as the subscription context is concerned, yet the
      pricing page marks no card current and offers the free plan. */
  lemma PlanlessAccountSeesNoCurrentCard(u: Auth.UserProfile)
    requires u.subscriptionPlan.None?
    ensures Subscription.CurrentPlanOf(Some(u)) == Some(Subscription.FreePlan)
    ensures forall k :: 0 <= k < |Subscription.AvailablePlans| ==>
      !IsCurrentPlan(Some(u), Subscription.AvailablePlans[k].id)
    ensures ButtonLabel(IsCurrentPlan(Some(u), "free"), "free") == "Usar plano gratuito"
  {
  }
}
