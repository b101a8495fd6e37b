/** The plan catalogue and the subscribe / cancel state machine
    (src/context/SubscriptionContext.tsx). */
module Subscription {
  import opened Common
  import opened Auth

  datatype PlanIncludes = PlanIncludes(
    fileUpload: bool,
    apiAccess: bool,
    prioritySupport: bool,
    advancedAnalytics: bool,
    customBranding: bool,
    multiLanguage: bool)

  /** A plan; a `botLimit` of -1 means unlimited. */
  datatype Plan = Plan(
    id: string,
    name: string,
    price: int,
    features: seq<string>,
    botLimit: int,
    messageLimit: int,
    includes: PlanIncludes)

  const FreePlan := Plan("free", "Gratuito", 0,
    ["1 bot ativo", "100 mensagens/mês", "Respostas básicas", "Documentação e suporte comunitário"],
    1, 100, PlanIncludes(false, false, false, false, false, false))

  const ProPlan := Plan("pro", "Profissional", 99,
    ["5 bots ativos", "5.000 mensagens/mês", "Respostas avançadas com contexto",
     "Upload de documentos (PDFs, textos)", "Suporte por e-mail"],
    5, 5000, PlanIncludes(true, true, false, true, false, true))

  const EnterprisePlan := Plan("enterprise", "Empresarial", 249,
    ["Bots ilimitados", "20.000 mensagens/mês", "IA avançada personalizada",
     "Upload ilimitado de materiais", "Integrações personalizadas", "Suporte prioritário"],
    -1, 20000, PlanIncludes(true, true, true, true, true, true))

  /** `availablePlans`, in display order. */
  const AvailablePlans: seq<Plan> := [FreePlan, ProPlan, EnterprisePlan]

  /** The catalogue lists "free", "pro" and "enterprise" in that order, and
      only the enterprise plan is unlimited. */
  lemma CatalogueShape()
    ensures |AvailablePlans| == 3
    ensures AvailablePlans[0].id == "free" && AvailablePlans[1].id == "pro" && AvailablePlans[2].id == "enterprise"
    ensures forall i :: 0 <= i < 3 ==> (AvailablePlans[i].botLimit == -1 <==> AvailablePlans[i].id == "enterprise")
  {
  }

  predicate HasId(id: string, p: Plan) { p.id == id }

  /** `availablePlans.find(p => p.id === planId)`. */
  function FindPlan(planId: string): (r: Option<Plan>)
    ensures r.Some? <==> planId == "free" || planId == "pro" || planId == "enterprise"
    ensures r.Some? ==> r.value.id == planId && r.value in AvailablePlans
  {
    var r := Find(AvailablePlans, p => HasId(planId, p));
    assert HasId(planId, AvailablePlans[0]) <==> planId == "free";
    assert HasId(planId, AvailablePlans[1]) <==> planId == "pro";
    assert HasId(planId, AvailablePlans[2]) <==> planId == "enterprise";
    r
  }

  /** `currentPlan`: the free plan when nobody is signed in or the account
      has no (or an empty) plan id; otherwise the catalogue entry with that
      id, which is missing when the id is not in the catalogue. */
  function CurrentPlanOf(user: Option<UserProfile>): (r: Option<Plan>)
    ensures user.None? || user.value.subscriptionPlan.None? || user.value.subscriptionPlan == Some("") ==>
      r == Some(FreePlan)
    ensures user.Some? && user.value.subscriptionPlan.Some? && user.value.subscriptionPlan.value != "" ==>
      var id := user.value.subscriptionPlan.value;
      && (r.Some? <==> id == "free" || id == "pro" || id == "enterprise")
      && (r.Some? ==> r.value in AvailablePlans && r.value.id == id)
  {
    if user.None? || user.value.subscriptionPlan.None? || user.value.subscriptionPlan.value == "" then
      Some(AvailablePlans[0])
    else
      FindPlan(user.value.subscriptionPlan.value)
  }

  /** The profile fields `subscribeToPlan` hands to `updateProfile`. */
  function SubscribePatch(planId: string, endDate: int): ProfilePatch
  {
    NoProfileChanges.(subscriptionStatus := Some(Active), subscriptionPlan := Some(Some(planId)),
                      subscriptionEndDate := Some(Some(endDate)))
  }

  /** The session after `subscribeToPlan(planId)`. */
  function AfterSubscribe(user: Option<UserProfile>, planId: string, endDate: int): Option<UserProfile>
  {
    if user.None? || FindPlan(planId).None? then user
    else Some(MergeProfile(user.value, SubscribePatch(planId, endDate)))
  }

  /** The session after `cancelSubscription()`. */
  function AfterCancel(user: Option<UserProfile>): Option<UserProfile>
  {
    if user.None? || user.value.subscriptionStatus != Active then user
    else Some(MergeProfile(user.value, NoProfileChanges.(subscriptionStatus := Some(Canceled))))
  }

  /** A successful subscription makes the account active on the requested
      plan, changes nothing but status, plan and end date, and the requested
      plan becomes the current plan. */
  lemma SubscribeOutcome(u: UserProfile, planId: string, endDate: int)
    requires FindPlan(planId).Some?
    ensures AfterSubscribe(Some(u), planId, endDate) ==
      Some(u.(subscriptionStatus := Active, subscriptionPlan := Some(planId), subscriptionEndDate := Some(endDate)))
    ensures CurrentPlanOf(AfterSubscribe(Some(u), planId, endDate)) == FindPlan(planId)
  {
  }

  /** A successful cancellation changes the status to canceled and nothing else. */
  lemma CancelOutcome(u: UserProfile)
    requires u.subscriptionStatus == Active
    ensures AfterCancel(Some(u)) == Some(u.(subscriptionStatus := Canceled))
  {
  }

  class SubscriptionProvider {
    const auth: AuthProvider
    var isProcessingPayment: bool

    ghost predicate Valid()
      reads this, auth
    {
      auth.Valid()
    }

    constructor (auth: AuthProvider)
      requires auth.Valid()
      ensures Valid() && this.auth == auth && !isProcessingPayment
    {
      this.auth := auth;
      isProcessingPayment := false;
    }

    function CurrentPlan(): (r: Option<Plan>)
      reads this, auth
      ensures r == CurrentPlanOf(auth.user)
      ensures auth.user.None? ==> r == Some(FreePlan)
    {
      CurrentPlanOf(auth.user)
    }

    /** `subscribeToPlan`: refused with nobody signed in or an unknown plan id,
        changing nothing; otherwise the profile becomes active on the plan, the
        payment flag is clear again, and the call reports success. */
    method SubscribeToPlan(planId: string, endDate: int) returns (ok: bool)
      requires Valid()
      modifies this, auth
      ensures Valid() && auth.registry == old(auth.registry)
      ensures ok <==> old(auth.user).Some? && FindPlan(planId).Some?
      ensures auth.user == AfterSubscribe(old(auth.user), planId, endDate)
      ensures !ok ==> unchanged(this) && unchanged(auth)
      ensures ok ==> !isProcessingPayment && !auth.isLoading
    {
      if auth.user.None? {
        return false;
      }
      var plan := FindPlan(planId);
      if plan.None? {
        return false;
      }
      isProcessingPayment := true;
      auth.UpdateProfile(SubscribePatch(planId, endDate));
      ok := true;
      isProcessingPayment := false;
    }

    /** `cancelSubscription`: refused unless an active subscription exists,
        changing nothing; otherwise the status becomes canceled. */
    method CancelSubscription() returns (ok: bool)
      requires Valid()
      modifies this, auth
      ensures Valid() && auth.registry == old(auth.registry)
      ensures ok <==> old(auth.user).Some? && old(auth.user).value.subscriptionStatus == Active
      ensures auth.user == AfterCancel(old(auth.user))
      ensures !ok ==> unchanged(this) && unchanged(auth)
      ensures ok ==> !isProcessingPayment && !auth.isLoading
    {
      if auth.user.None? || auth.user.value.subscriptionStatus != Active {
        return false;
      }
      isProcessingPayment := true;
      auth.UpdateProfile(NoProfileChanges.(subscriptionStatus := Some(Canceled)));
      ok := true;
      isProcessingPayment := false;
    }
  }
}
