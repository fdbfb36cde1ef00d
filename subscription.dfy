/** The two plans and the decisions taken from a profile and a clock: which
    plan a user is on, whether a new task may be created, how many days of a
    subscription are left (client/src/lib/subscription.ts). */
module Subscription {
  import opened Basics
  import opened UserProfile

  /** An entry of the plan catalogue. The numeric price is left out. */
  datatype PlanInfo = PlanInfo(id: Plan, name: string, price: string, features: seq<string>, highlight: bool)

  const Plans: seq<PlanInfo> := [
    PlanInfo(Basic, "Básico", "Grátis",
      ["Acesso ao Seiton Planner", "Agenda básica", "Até 50 tarefas/mês",
       "Sistema de pontos e conquistas", "Suporte por email"],
      false),
    PlanInfo(Premium, "Premium", "R$ 29,90/mês",
      ["Tudo do Básico", "Acesso ao AnotaChef", "Gestão Financeira Completa", "Controle de Estoque",
       "Tarefas ilimitadas", "Gamificação Avançada", "Suporte Prioritário", "Análises e Relatórios"],
      true)
  ]

  /** `PLANS.find(p => p.id === id)` over any catalogue. */
  function FindIn(catalogue: seq<PlanInfo>, id: Plan): (r: Option<PlanInfo>)
    ensures r.Some? ==> r.value in catalogue && r.value.id == id
    ensures r.None? ==> forall k :: 0 <= k < |catalogue| ==> catalogue[k].id != id
    ensures r.Some? ==> exists k :: 0 <= k < |catalogue| && catalogue[k] == r.value &&
                          forall j :: 0 <= j < k ==> catalogue[j].id != id
  {
    if catalogue == [] then None
    else if catalogue[0].id == id then Some(catalogue[0])
    else
      var rest := FindIn(catalogue[1..], id);
      if rest.Some? then
        assert forall j :: 1 <= j < |catalogue| ==> catalogue[j] == catalogue[1..][j - 1];
        rest
      else rest
  }

  /** The catalogue has one entry per plan, basic first; only premium is
      highlighted, and every plan can be found in it. */
  lemma PlanCatalogue(id: Plan)
    ensures |Plans| == 2 && Plans[0].id == Basic && Plans[1].id == Premium
    ensures !Plans[0].highlight && Plans[1].highlight
    ensures FindIn(Plans, id).Some? && FindIn(Plans, id).value.highlight == (id == Premium)
  {
  }

  /** `getCurrentPlan`: the stored plan, basic when the document has none. */
  function GetCurrentPlan(p: Profile): (r: Plan)
    ensures p.subscriptionPlan.Some? ==> r == p.subscriptionPlan.value
    ensures p.subscriptionPlan.None? ==> r == Basic
  {
    if p.subscriptionPlan.Some? then p.subscriptionPlan.value else Basic
  }

  /** The basic plan's cap, counted against the lifetime completed-task
      counter. */
  const MonthlyTaskLimit: int := 50

  const LimitReason: string :=
    "Limite de 50 tarefas/mês atingido. Faça upgrade para Premium para tarefas ilimitadas."

  datatype CreateDecision = CreateDecision(canCreate: bool, reason: Option<string>)

  /** `canCreateTask`: an active premium subscription may always create a task;
      anyone else while fewer than 50 tasks have been completed. A refusal
      carries its reason. */
  function CanCreateTask(p: Profile, now: int): (r: CreateDecision)
    ensures r.canCreate <==>
      (p.subscriptionPlan == Some(Premium) && IsSubscriptionActive(p, now)) || p.completedTasks < MonthlyTaskLimit
    ensures r.canCreate <==> r.reason.None?
    ensures r.reason.Some? ==> |r.reason.value| > 0
  {
    if p.subscriptionPlan == Some(Premium) && IsSubscriptionActive(p, now) then CreateDecision(true, None)
    else if p.completedTasks < MonthlyTaskLimit then CreateDecision(true, None)
    else CreateDecision(false, Some(LimitReason))
  }

  /** `formatRenewalDate`: "N/A" without an end date; the locale rendering of a
      date is supplied as `formatted`. */
  function FormatRenewalDate(endDate: Option<int>, formatted: string): (r: string)
    ensures endDate.None? ==> r == "N/A"
  {
    if endDate.None? then "N/A" else formatted
  }

  /** `getDaysRemaining`: whole days, rounded up, from `now` to the end date;
      never negative; zero without an end date. */
  function GetDaysRemaining(endDate: Option<int>, now: int): (r: int)
    ensures r >= 0
    ensures endDate.None? ==> r == 0
    ensures r > 0 <==> endDate.Some? && endDate.value > now
    ensures endDate.Some? && endDate.value > now ==>
      (r - 1) * DayMs < endDate.value - now <= r * DayMs
  {
    if endDate.None? then 0
    else Max(0, CeilDays(endDate.value - now))
  }

  /** A premium subscription that has not expired is never refused a task, a
      user on any other footing is refused exactly from the 50th completed
      task on, and the refusal does not depend on the clock for basic. */
  lemma {:induction false} TaskLimitByPlan(p: Profile, now: int)
    ensures p.subscriptionPlan == Some(Premium) && IsSubscriptionActive(p, now) ==> CanCreateTask(p, now).canCreate
    ensures p.subscriptionPlan == Some(Basic) ==>
      (CanCreateTask(p, now).canCreate <==> p.completedTasks < MonthlyTaskLimit)
    ensures !IsSubscriptionActive(p, now) ==>
      (CanCreateTask(p, now).canCreate <==> p.completedTasks < MonthlyTaskLimit)
  {
  }
}
