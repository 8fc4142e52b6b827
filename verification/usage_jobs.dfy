// usage/client.go: Fetch runs ten jobs in parallel. A job that fails records its
// error, one that succeeds fills its part of the snapshot; either happens in one
// critical section, so a run is an order of ten atomic steps. Times are
// milliseconds, with 0 for the zero time.
module UsageJobs {
  import opened Text
  import opened Wrappers

  datatype Kind =
    | CurrentPeriod | BillingCycle | Aggregated24h | Aggregated7d | Aggregated30d
    | LimitStatus | HardLimit | PremiumRequests | SandUsage | Me

  const KINDS := [CurrentPeriod, BillingCycle, Aggregated24h, Aggregated7d, Aggregated30d,
                  LimitStatus, HardLimit, PremiumRequests, SandUsage, Me]

  // ---------- responses ----------

  datatype Plan = Plan(total: int, included: int, remaining: int, limit: int, autoSpend: int, autoLimit: int,
                       autoPercent: real, apiSpend: int, apiLimit: int, apiPercent: real, totalPercent: real)
  datatype Tokens = Tokens(input: int, output: int, cacheRead: int, cacheWrite: int)
  datatype Policy = Policy(inSlowPool: bool, title: string, detail: string, slownessMs: int, resetAtMs: int, resetDays: int)
  datatype Sand = Sand(zeroIncluded: bool, nonZeroIncluded: bool, available: bool, percent: real, planLabel: string,
                       nextReset: int, trialExpires: int)
  datatype Account = Account(email: string, country: string, createdAt: string, signUpType: string,
                             teamId: int, teamName: string, admin: bool, enterprise: bool)

  datatype Response =
    | Period(plan: Option<Plan>, start: int, end: int)
    | Cycle(cycleStart: int, cycleEnd: int)
    | Usage(costCents: int, tokens: Tokens)
    | Limits(policy: Option<Policy>)
    | Hard(dollars: int, noUsageBased: bool)
    | Premium(enabled: bool)
    | SandStatus(sand: Sand)
    | Identity(account: Account)

  datatype Outcome = Failed(error: string) | Answered(response: Response)

  // What upstream says to each job in one fetch.
  type Upstream = Kind -> Outcome

  // Every answer has the type of its request.
  predicate Fits(k: Kind, o: Outcome) {
    o.Answered? ==>
      match k
      case CurrentPeriod => o.response.Period?
      case BillingCycle => o.response.Cycle?
      case Aggregated24h => o.response.Usage?
      case Aggregated7d => o.response.Usage?
      case Aggregated30d => o.response.Usage?
      case LimitStatus => o.response.Limits?
      case HardLimit => o.response.Hard?
      case PremiumRequests => o.response.Premium?
      case SandUsage => o.response.SandStatus?
      case Me => o.response.Identity?
  }

  ghost predicate Typed(up: Upstream) {
    forall k :: Fits(k, up(k))
  }

  // ---------- the snapshot ----------

  datatype Window = Window(spend: int, tokens: Tokens)
  datatype SlowPool = SlowPool(inSlowPool: bool, reason: string, detail: string, slownessMs: int, resetDays: int)
  datatype Bot = Bot(unlocked: bool, available: bool, percent: real, planLabel: string)
  datatype Identities = Identities(email: string, country: string, createdAt: string, signUpType: string,
                                   teamName: string, admin: bool, enterprise: bool)

  const NO_PLAN := Plan(0, 0, 0, 0, 0, 0, 0.0, 0, 0, 0.0, 0.0)
  const NO_USAGE := Window(0, Tokens(0, 0, 0, 0))

  datatype Fields = Fields(
    plan: Plan, periodStart: int, periodEnd: int,
    last24h: Window, last7d: Window, last30d: Window,
    slowPool: SlowPool, rateLimitResetAt: Option<int>,
    hardLimitCents: int, noUsageBased: bool, premium: bool,
    bot: Bot, botNextReset: Option<int>, botTrialExpires: Option<int>,
    me: Identities, teamId: int)

  datatype Snapshot = Snapshot(fields: Fields, fetched: set<Kind>, errors: map<Kind, string>)

  const UNSET := Fields(
    NO_PLAN, 0, 0, NO_USAGE, NO_USAGE, NO_USAGE,
    SlowPool(false, "", "", 0, 0), None, 0, false, false,
    Bot(false, false, 0.0, ""), None, None,
    Identities("", "", "", "", "", false, false), 0)

  const EMPTY := Snapshot(UNSET, {}, map[])

  function Positive(t: int): Option<int> {
    if t > 0 then Some(t) else None
  }

  // `t`, unless it is not set.
  function Or<T>(t: Option<T>, other: Option<T>): Option<T> {
    if t.Some? then t else other
  }

  function Fill(s: Fields, k: Kind, r: Response): Fields
    requires Fits(k, Answered(r))
  {
    match k
    case CurrentPeriod =>
      s.(plan := if r.plan.Some? then r.plan.value else s.plan,
         periodStart := if s.periodStart == 0 && r.start > 0 then r.start else s.periodStart,
         periodEnd := if s.periodEnd == 0 && r.end > 0 then r.end else s.periodEnd)
    case BillingCycle =>
      s.(periodStart := if r.cycleStart > 0 then r.cycleStart else s.periodStart,
         periodEnd := if r.cycleEnd > 0 then r.cycleEnd else s.periodEnd)
    case Aggregated24h => s.(last24h := Window(r.costCents, r.tokens))
    case Aggregated7d => s.(last7d := Window(r.costCents, r.tokens))
    case Aggregated30d => s.(last30d := Window(r.costCents, r.tokens))
    case LimitStatus =>
      if r.policy.None? then s
      else
        var p := r.policy.value;
        s.(slowPool := SlowPool(p.inSlowPool, p.title, p.detail, p.slownessMs, p.resetDays),
           rateLimitResetAt := Or(Positive(p.resetAtMs), s.rateLimitResetAt))
    case HardLimit => s.(hardLimitCents := r.dollars * 100, noUsageBased := r.noUsageBased)
    case PremiumRequests => s.(premium := r.enabled)
    case SandUsage =>
      var b := r.sand;
      s.(bot := Bot(!b.zeroIncluded && b.nonZeroIncluded, b.available, b.percent, TrimSpace(b.planLabel)),
         botNextReset := Or(Positive(b.nextReset), s.botNextReset),
         botTrialExpires := Or(Positive(b.trialExpires), s.botTrialExpires))
    case Me =>
      var a := r.account;
      s.(me := Identities(a.email, a.country, a.createdAt, a.signUpType, a.teamName, a.admin, a.enterprise),
         teamId := if a.teamId > 0 then a.teamId else s.teamId)
  }

  // The critical section of one job.
  function Step(s: Snapshot, k: Kind, o: Outcome): Snapshot
    requires Fits(k, o)
  {
    match o
    case Failed(error) => s.(errors := s.errors[k := error])
    case Answered(r) => s.(fields := Fill(s.fields, k, r), fetched := s.fetched + {k})
  }

  ghost function Run(s: Snapshot, order: seq<Kind>, up: Upstream): Snapshot
    requires Typed(up)
  {
    if order == [] then s
    else
      var k := order[|order| - 1];
      Step(Run(s, order[..|order| - 1], up), k, up(k))
  }

  // ---------- confluence ----------

  // Two different jobs commute from every state; the period bounds are the only
  // fields that two of them write.
  lemma {:induction false} StepsCommute(s: Snapshot, a: Kind, b: Kind, oa: Outcome, ob: Outcome)
    requires a != b && Fits(a, oa) && Fits(b, ob)
    ensures Step(Step(s, a, oa), b, ob) == Step(Step(s, b, ob), a, oa)
  {
    match (oa, ob) {
      case (Failed(ea), Failed(eb)) =>
        assert s.errors[a := ea][b := eb] == s.errors[b := eb][a := ea];
      case (Answered(ra), Answered(rb)) =>
        assert (s.fetched + {a}) + {b} == (s.fetched + {b}) + {a};
        FillsCommute(s.fields, a, b, ra, rb);
      case _ =>
    }
  }

  lemma {:induction false} FillsCommute(s: Fields, a: Kind, b: Kind, ra: Response, rb: Response)
    requires a != b && Fits(a, Answered(ra)) && Fits(b, Answered(rb))
    ensures Fill(Fill(s, a, ra), b, rb) == Fill(Fill(s, b, rb), a, ra)
  {
  }

  ghost predicate Distinct(order: seq<Kind>) {
    forall i, j | 0 <= i < j < |order| :: order[i] != order[j]
  }

  lemma {:induction false} RunSnoc(s: Snapshot, order: seq<Kind>, k: Kind, up: Upstream)
    requires Typed(up)
    ensures Run(s, order + [k], up) == Step(Run(s, order, up), k, up(k))
  {
    assert (order + [k])[..|order|] == order;
  }

  // A job may finish last instead of where it did.
  lemma {:induction false} MoveToEnd(s: Snapshot, before: seq<Kind>, k: Kind, after: seq<Kind>, up: Upstream)
    requires Typed(up) && k !in after
    ensures Run(s, before + [k] + after, up) == Run(s, before + after + [k], up)
  {
    if after == [] {
      assert before + [k] + after == before + after + [k];
    } else {
      var n := |after| - 1;
      var front, last := after[..n], after[n];
      assert after == front + [last];
      MoveToEnd(s, before, k, front, up);
      assert before + [k] + after == (before + [k] + front) + [last];
      RunSnoc(s, before + [k] + front, last, up);
      RunSnoc(s, before + front, k, up);
      assert before + after == (before + front) + [last];
      RunSnoc(s, before + front, last, up);
      RunSnoc(s, before + after, k, up);
      StepsCommute(Run(s, before + front, up), k, last, up(k), up(last));
    }
  }

  // Where the last job of one order stands in the other.
  lemma {:induction false} FindLast(front: seq<Kind>, k: Kind, other: seq<Kind>) returns (a: seq<Kind>, b: seq<Kind>)
    requires multiset(front + [k]) == multiset(other)
    ensures other == a + [k] + b && multiset(front) == multiset(a + b)
  {
    var i := PlaceOf(front, k, other);
    a, b := other[..i], other[i + 1..];
    assert other == a + [k] + b;
    WithoutOne(front, [], k);
    WithoutOne(a, b, k);
    assert front + [] == front && front + [k] + [] == front + [k];
  }

  lemma {:induction false} PlaceOf(front: seq<Kind>, k: Kind, other: seq<Kind>) returns (i: nat)
    requires multiset(front + [k]) == multiset(other)
    ensures i < |other| && other[i] == k
  {
    assert (front + [k])[|front|] == k;
    assert k in multiset(front + [k]);
    assert k in other;
    i :| 0 <= i < |other| && other[i] == k;
  }

  lemma {:induction false} WithoutOne(a: seq<Kind>, b: seq<Kind>, k: Kind)
    ensures multiset(a + b) == multiset(a + [k] + b) - multiset{k}
  {
    assert multiset(a + [k] + b) == multiset(a) + multiset{k} + multiset(b);
    assert multiset(a + b) == multiset(a) + multiset(b);
  }

  // Every order of the same jobs gives the same snapshot and the same errors.
  lemma {:induction false} OrderDoesNotMatter(s: Snapshot, order: seq<Kind>, other: seq<Kind>, up: Upstream)
    requires Typed(up) && Distinct(order) && multiset(order) == multiset(other)
    ensures Run(s, order, up) == Run(s, other, up)
    decreases |order|
  {
    if order == [] {
      assert |other| == |multiset(other)| == 0;
    } else {
      var n := |order| - 1;
      var front, k := order[..n], order[n];
      assert order == front + [k];
      var a, b := FindLast(front, k, other);
      LastIsNew(front, k, a, b);
      MoveToEnd(s, a, k, b, up);
      OrderDoesNotMatter(s, front, a + b, up);
      RunSnoc(s, a + b, k, up);
    }
  }

  lemma {:induction false} LastIsNew(front: seq<Kind>, k: Kind, a: seq<Kind>, b: seq<Kind>)
    requires Distinct(front + [k]) && multiset(front) == multiset(a + b)
    ensures Distinct(front) && k !in b
  {
    assert forall i | 0 <= i < |front| :: (front + [k])[i] == front[i];
    assert (front + [k])[|front|] == k;
    assert k !in multiset(front);
    assert k in b ==> k in multiset(a + b);
  }

  // ---------- what every run ends with ----------

  // A job has either its data or its error, never both, and no other job's.
  lemma {:induction false} FetchedOrFailed(order: seq<Kind>, up: Upstream, k: Kind)
    requires Typed(up)
    ensures var s := Run(EMPTY, order, up);
      && (k in s.fetched <==> k in order && up(k).Answered?)
      && (k in s.errors <==> k in order && up(k).Failed?)
      && (k in s.errors ==> s.errors[k] == up(k).error)
  {
    if order != [] {
      var n := |order| - 1;
      FetchedOrFailed(order[..n], up, k);
      assert order == order[..n] + [order[n]];
    }
  }

  function CycleStart(o: Outcome): int {
    if o.Answered? && o.response.Cycle? && o.response.cycleStart > 0 then o.response.cycleStart else 0
  }

  function CycleEnd(o: Outcome): int {
    if o.Answered? && o.response.Cycle? && o.response.cycleEnd > 0 then o.response.cycleEnd else 0
  }

  function UsageStart(o: Outcome): int {
    if o.Answered? && o.response.Period? && o.response.start > 0 then o.response.start else 0
  }

  function UsageEnd(o: Outcome): int {
    if o.Answered? && o.response.Period? && o.response.end > 0 then o.response.end else 0
  }

  // The bounds that the jobs done so far have set.
  function Bound(cycle: int, usage: int): int {
    if cycle != 0 then cycle else usage
  }

  lemma {:induction false} PeriodSoFar(order: seq<Kind>, up: Upstream)
    requires Typed(up)
    ensures var f := Run(EMPTY, order, up).fields;
      && f.periodStart == Bound(if BillingCycle in order then CycleStart(up(BillingCycle)) else 0,
                                if CurrentPeriod in order then UsageStart(up(CurrentPeriod)) else 0)
      && f.periodEnd == Bound(if BillingCycle in order then CycleEnd(up(BillingCycle)) else 0,
                              if CurrentPeriod in order then UsageEnd(up(CurrentPeriod)) else 0)
  {
    if order != [] {
      var n := |order| - 1;
      var k := order[n];
      PeriodSoFar(order[..n], up);
      assert order == order[..n] + [k];
      assert forall x :: x in order <==> x in order[..n] || x == k;
      assert Fits(k, up(k));
    }
  }

  // The billing cycle decides the period bounds, the current-period usage fills
  // in what it leaves unset; which of the two came first does not show.
  lemma {:induction false} PeriodBounds(order: seq<Kind>, up: Upstream)
    requires Typed(up) && BillingCycle in order && CurrentPeriod in order
    ensures var f := Run(EMPTY, order, up).fields;
      && f.periodStart == Bound(CycleStart(up(BillingCycle)), UsageStart(up(CurrentPeriod)))
      && f.periodEnd == Bound(CycleEnd(up(BillingCycle)), UsageEnd(up(CurrentPeriod)))
  {
    PeriodSoFar(order, up);
  }

  // The answer to job `k`, if it ran and got one.
  function Answer(order: seq<Kind>, up: Upstream, k: Kind): Option<Response> {
    if k in order && up(k).Answered? then Some(up(k).response) else None
  }

  // A window holds the cents and the four token counts of its own answer.
  predicate WindowHolds(w: Window, answer: Option<Response>) {
    match answer
    case Some(r) =>
      && r.Usage? && w.spend == r.costCents
      && w.tokens.input == r.tokens.input && w.tokens.output == r.tokens.output
      && w.tokens.cacheRead == r.tokens.cacheRead && w.tokens.cacheWrite == r.tokens.cacheWrite
    case None => w.spend == 0 && w.tokens == Tokens(0, 0, 0, 0)
  }

  // The hard limit is answered in dollars and kept in cents.
  predicate LimitHolds(f: Fields, answer: Option<Response>) {
    match answer
    case Some(r) => r.Hard? && f.hardLimitCents == 100 * r.dollars && f.noUsageBased == r.noUsageBased
    case None => f.hardLimitCents == 0 && !f.noUsageBased
  }

  // A time that is not positive counts as none.
  predicate PoolHolds(f: Fields, answer: Option<Response>) {
    match answer
    case Some(Limits(Some(p))) =>
      && f.slowPool.inSlowPool == p.inSlowPool && f.slowPool.reason == p.title && f.slowPool.detail == p.detail
      && f.slowPool.slownessMs == p.slownessMs && f.slowPool.resetDays == p.resetDays
      && f.rateLimitResetAt == (if p.resetAtMs > 0 then Some(p.resetAtMs) else None)
    case _ => f.slowPool == SlowPool(false, "", "", 0, 0) && f.rateLimitResetAt == None
  }

  predicate BotHolds(f: Fields, answer: Option<Response>) {
    match answer
    case Some(SandStatus(b)) =>
      && (f.bot.unlocked <==> b.nonZeroIncluded && !b.zeroIncluded)
      && f.bot.available == b.available && f.bot.percent == b.percent && f.bot.planLabel == TrimSpace(b.planLabel)
      && f.botNextReset == (if b.nextReset > 0 then Some(b.nextReset) else None)
      && f.botTrialExpires == (if b.trialExpires > 0 then Some(b.trialExpires) else None)
    case _ => f.bot == Bot(false, false, 0.0, "") && f.botNextReset == None && f.botTrialExpires == None
  }

  predicate AccountHolds(f: Fields, answer: Option<Response>) {
    match answer
    case Some(Identity(a)) =>
      && f.me.email == a.email && f.me.country == a.country && f.me.createdAt == a.createdAt
      && f.me.signUpType == a.signUpType && f.me.teamName == a.teamName && f.me.admin == a.admin
      && f.me.enterprise == a.enterprise && f.teamId == (if a.teamId > 0 then a.teamId else 0)
    case _ => f.me == Identities("", "", "", "", "", false, false) && f.teamId == 0
  }

  // The fields of job `k` are those of its answer, and unset without one. The
  // period bounds, which two jobs write, are the subject of PeriodBounds.
  predicate Holds(f: Fields, k: Kind, answer: Option<Response>) {
    match k
    case CurrentPeriod =>
      (match answer
       case Some(Period(Some(plan), _, _)) => f.plan == plan
       case _ => f.plan == Plan(0, 0, 0, 0, 0, 0, 0.0, 0, 0, 0.0, 0.0))
    case BillingCycle => true
    case Aggregated24h => WindowHolds(f.last24h, answer)
    case Aggregated7d => WindowHolds(f.last7d, answer)
    case Aggregated30d => WindowHolds(f.last30d, answer)
    case LimitStatus => PoolHolds(f, answer)
    case HardLimit => LimitHolds(f, answer)
    case PremiumRequests => (match answer case Some(Premium(enabled)) => f.premium == enabled case _ => !f.premium)
    case SandUsage => BotHolds(f, answer)
    case Me => AccountHolds(f, answer)
  }

  ghost predicate AllHold(f: Fields, order: seq<Kind>, up: Upstream) {
    forall k :: Holds(f, k, Answer(order, up, k))
  }

  // Every field of the snapshot is that of its own job's answer.
  lemma {:induction false} FieldsFromAnswers(order: seq<Kind>, up: Upstream)
    requires Typed(up) && Distinct(order)
    ensures AllHold(Run(EMPTY, order, up).fields, order, up)
  {
    if order != [] {
      var n := |order| - 1;
      var front, k := order[..n], order[n];
      assert order == front + [k];
      assert forall i | 0 <= i < n :: front[i] == order[i];
      FieldsFromAnswers(front, up);
      assert Fits(k, up(k));
      OneMoreAnswer(Run(EMPTY, front, up), front, k, up);
    }
  }

  lemma {:induction false} AnswerNext(front: seq<Kind>, k: Kind, up: Upstream)
    ensures forall x | x != k :: Answer(front + [k], up, x) == Answer(front, up, x)
    ensures Answer(front + [k], up, k) == match up(k) case Answered(r) => Some(r) case Failed(_) => None
  {
    assert forall x :: x in front + [k] <==> x in front || x == k;
  }

  lemma {:induction false} OneMoreAnswer(s: Snapshot, front: seq<Kind>, k: Kind, up: Upstream)
    requires Fits(k, up(k)) && k !in front && AllHold(s.fields, front, up)
    ensures AllHold(Step(s, k, up(k)).fields, front + [k], up)
  {
    AnswerNext(front, k, up);
    assert Answer(front, up, k) == None;
    var f := Step(s, k, up(k)).fields;
    forall j
      ensures Holds(f, j, Answer(front + [k], up, j))
    {
      assert Holds(s.fields, j, Answer(front, up, j));
      if up(k).Answered? {
        if j == k { FillHolds(s.fields, k, up(k).response); } else { FillKeeps(s.fields, k, up(k).response, j, Answer(front, up, j)); }
      }
    }
  }

  lemma {:induction false} FillHolds(f: Fields, k: Kind, r: Response)
    requires Fits(k, Answered(r)) && Holds(f, k, None)
    ensures Holds(Fill(f, k, r), k, Some(r))
  {
  }

  lemma {:induction false} FillKeeps(f: Fields, k: Kind, r: Response, j: Kind, answer: Option<Response>)
    requires Fits(k, Answered(r)) && j != k && Holds(f, j, answer)
    ensures Holds(Fill(f, k, r), j, answer)
  {
  }

  // ---------- the shared snapshot ----------

  // One method for each critical section.
  class SharedSnapshot {
    var plan: Plan
    var periodStart: int
    var periodEnd: int
    var last24h: Window
    var last7d: Window
    var last30d: Window
    var slowPool: SlowPool
    var rateLimitResetAt: Option<int>
    var hardLimitCents: int
    var noUsageBased: bool
    var premium: bool
    var bot: Bot
    var botNextReset: Option<int>
    var botTrialExpires: Option<int>
    var me: Identities
    var teamId: int
    var fetched: set<Kind>
    var errors: map<Kind, string>

    function View(): Snapshot
      reads this
    {
      Snapshot(Fields(plan, periodStart, periodEnd, last24h, last7d, last30d, slowPool, rateLimitResetAt, hardLimitCents,
                      noUsageBased, premium, bot, botNextReset, botTrialExpires, me, teamId),
               fetched, errors)
    }

    constructor ()
      ensures View() == EMPTY
    {
      plan, periodStart, periodEnd := NO_PLAN, 0, 0;
      last24h, last7d, last30d := NO_USAGE, NO_USAGE, NO_USAGE;
      slowPool, rateLimitResetAt := SlowPool(false, "", "", 0, 0), None;
      hardLimitCents, noUsageBased, premium := 0, false, false;
      bot, botNextReset, botTrialExpires := Bot(false, false, 0.0, ""), None, None;
      me, teamId := Identities("", "", "", "", "", false, false), 0;
      fetched, errors := {}, map[];
    }

    method SetErr(k: Kind, error: string)
      modifies this
      ensures View() == Step(old(View()), k, Failed(error))
    {
      errors := errors[k := error];
    }

    method SetCurrentPeriod(r: Response)
      requires r.Period?
      modifies this
      ensures View() == Step(old(View()), CurrentPeriod, Answered(r))
    {
      if r.plan.Some? {
        plan := r.plan.value;
      }
      if periodStart == 0 && r.start > 0 {
        periodStart := r.start;
      }
      if periodEnd == 0 && r.end > 0 {
        periodEnd := r.end;
      }
      fetched := fetched + {CurrentPeriod};
    }

    method SetBillingCycle(r: Response)
      requires r.Cycle?
      modifies this
      ensures View() == Step(old(View()), BillingCycle, Answered(r))
    {
      if r.cycleStart > 0 {
        periodStart := r.cycleStart;
      }
      if r.cycleEnd > 0 {
        periodEnd := r.cycleEnd;
      }
      fetched := fetched + {BillingCycle};
    }

    // aggregateJob, with its target as a window instead of three pointers
    method SetAggregated(k: Kind, r: Response)
      requires k in {Aggregated24h, Aggregated7d, Aggregated30d} && r.Usage?
      modifies this
      ensures View() == Step(old(View()), k, Answered(r))
    {
      var w := Window(r.costCents, r.tokens);
      if k == Aggregated24h {
        last24h := w;
      } else if k == Aggregated7d {
        last7d := w;
      } else {
        last30d := w;
      }
      fetched := fetched + {k};
    }

    method SetLimitStatus(r: Response)
      requires r.Limits?
      modifies this
      ensures View() == Step(old(View()), LimitStatus, Answered(r))
    {
      if r.policy.Some? {
        var p := r.policy.value;
        slowPool := SlowPool(p.inSlowPool, p.title, p.detail, p.slownessMs, p.resetDays);
        if p.resetAtMs > 0 {
          rateLimitResetAt := Some(p.resetAtMs);
        }
      }
      fetched := fetched + {LimitStatus};
    }

    method SetHardLimit(r: Response)
      requires r.Hard?
      modifies this
      ensures View() == Step(old(View()), HardLimit, Answered(r))
    {
      hardLimitCents := r.dollars * 100;
      noUsageBased := r.noUsageBased;
      fetched := fetched + {HardLimit};
    }

    method SetPremium(r: Response)
      requires r.Premium?
      modifies this
      ensures View() == Step(old(View()), PremiumRequests, Answered(r))
    {
      premium := r.enabled;
      fetched := fetched + {PremiumRequests};
    }

    method SetSandUsage(r: Response)
      requires r.SandStatus?
      modifies this
      ensures View() == Step(old(View()), SandUsage, Answered(r))
    {
      var b := r.sand;
      bot := Bot(!b.zeroIncluded && b.nonZeroIncluded, b.available, b.percent, TrimSpace(b.planLabel));
      if b.nextReset > 0 {
        botNextReset := Some(b.nextReset);
      }
      if b.trialExpires > 0 {
        botTrialExpires := Some(b.trialExpires);
      }
      fetched := fetched + {SandUsage};
    }

    method SetMe(r: Response)
      requires r.Identity?
      modifies this
      ensures View() == Step(old(View()), Me, Answered(r))
    {
      var a := r.account;
      me := Identities(a.email, a.country, a.createdAt, a.signUpType, a.teamName, a.admin, a.enterprise);
      if a.teamId > 0 {
        teamId := a.teamId;
      }
      fetched := fetched + {Me};
    }

    method RunJob(k: Kind, o: Outcome)
      requires Fits(k, o)
      modifies this
      ensures View() == Step(old(View()), k, o)
    {
      match o {
        case Failed(error) => SetErr(k, error);
        case Answered(r) =>
          match k {
            case CurrentPeriod => SetCurrentPeriod(r);
            case BillingCycle => SetBillingCycle(r);
            case Aggregated24h => SetAggregated(k, r);
            case Aggregated7d => SetAggregated(k, r);
            case Aggregated30d => SetAggregated(k, r);
            case LimitStatus => SetLimitStatus(r);
            case HardLimit => SetHardLimit(r);
            case PremiumRequests => SetPremium(r);
            case SandUsage => SetSandUsage(r);
            case Me => SetMe(r);
          }
      }
    }
  }

  // Fetch: the ten jobs in whatever order they reach the lock. The result does
  // not depend on that order, and the error map is dropped if no job failed.
  method Fetch(order: seq<Kind>, up: Upstream) returns (snap: Snapshot, errors: Option<map<Kind, string>>)
    requires Typed(up) && multiset(order) == multiset(KINDS)
    ensures snap == Run(EMPTY, KINDS, up)
    ensures AllHold(snap.fields, KINDS, up)
    ensures errors.None? <==> forall k :: up(k).Answered?
    ensures errors.Some? ==> errors.value == snap.errors
  {
    var shared := new SharedSnapshot();
    for i := 0 to |order|
      invariant fresh(shared)
      invariant shared.View() == Run(EMPTY, order[..i], up)
    {
      assert order[..i + 1][..i] == order[..i];
      shared.RunJob(order[i], up(order[i]));
    }
    assert order[..|order|] == order;
    AnyOrder(order, up);
    KindsAreDistinct();
    FieldsFromAnswers(KINDS, up);
    snap := shared.View();
    errors := if |snap.errors| == 0 then None else Some(snap.errors);
  }

  lemma {:induction false} KindsAreDistinct()
    ensures Distinct(KINDS)
  {
  }

  lemma {:induction false} ErrorsOfAll(up: Upstream)
    requires Typed(up)
    ensures |Run(EMPTY, KINDS, up).errors| == 0 <==> forall k :: up(k).Answered?
  {
    forall k
      ensures k in Run(EMPTY, KINDS, up).errors <==> up(k).Failed?
    {
      FetchedOrFailed(KINDS, up, k);
      EveryKind(k);
    }
    NoErrors(Run(EMPTY, KINDS, up).errors, up);
  }

  lemma {:induction false} AnyOrder(order: seq<Kind>, up: Upstream)
    requires Typed(up) && multiset(order) == multiset(KINDS)
    ensures Run(EMPTY, order, up) == Run(EMPTY, KINDS, up)
    ensures |Run(EMPTY, order, up).errors| == 0 <==> forall k :: up(k).Answered?
  {
    KindsAreDistinct();
    OrderDoesNotMatter(EMPTY, KINDS, order, up);
    ErrorsOfAll(up);
  }

  lemma {:induction false} EveryKind(k: Kind)
    ensures k in KINDS
  {
    match k {
      case CurrentPeriod => assert KINDS[0] == k;
      case BillingCycle => assert KINDS[1] == k;
      case Aggregated24h => assert KINDS[2] == k;
      case Aggregated7d => assert KINDS[3] == k;
      case Aggregated30d => assert KINDS[4] == k;
      case LimitStatus => assert KINDS[5] == k;
      case HardLimit => assert KINDS[6] == k;
      case PremiumRequests => assert KINDS[7] == k;
      case SandUsage => assert KINDS[8] == k;
      case Me => assert KINDS[9] == k;
    }
  }

  lemma {:induction false} NoErrors(errors: map<Kind, string>, up: Upstream)
    requires forall k :: k in errors <==> up(k).Failed?
    ensures |errors| == 0 <==> forall k :: up(k).Answered?
  {
    if |errors| != 0 {
      assert errors != map[];
      var k :| k in errors;
    }
  }
}
