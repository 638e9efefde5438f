/**
 * Per-seller and per-channel performance. Lead rows (already joined with their
 * sale data) are counted into one group per seller name and one group per
 * channel key; averages, win rate, conversion rate, ticket, cost per lead and
 * ROI are derived with guarded divisions; activity totals are added to the
 * sellers that exist; the day's rows replace any earlier rows of that day.
 */
module Performance {
  import opened Wrappers
  import opened Rates

  /** A row of the leads query; every column may be `NULL` (a left join). */
  datatype PerfLead = PerfLead(
    canal: Option<string>,
    utmSource: Option<string>,
    utmMedium: Option<string>,
    responseTimeHours: Option<real>,
    leadCost: Option<real>,
    userName: Option<string>,
    userRole: Option<string>,
    statusName: Option<string>,
    salePrice: Option<real>,
    salesCycleDays: Option<int>)

  /** A row of the activities query: one user's counts for one activity type and day. */
  datatype ActivityRow = ActivityRow(userName: Option<string>, total: nat, completed: nat, contacted: nat)

  predicate TruthyReal(x: Option<real>) {
    x.Some? && x.value != 0.0
  }

  predicate TruthyInt(x: Option<int>) {
    x.Some? && x.value != 0
  }

  predicate IsWon(l: PerfLead) {
    l.statusName == Some("Venda ganha")
  }

  predicate IsLost(l: PerfLead) {
    l.statusName == Some("Venda perdida")
  }

  // ---------------------------------------------------------------------------
  // Counting
  // ---------------------------------------------------------------------------

  /** The counters of one group; `cost` is only counted for channels. */
  datatype Counters = Counters(
    totalLeads: nat,
    won: nat,
    lost: nat,
    revenue: real,
    responseSum: real,
    withResponse: nat,
    cycleSum: real,
    withCycle: nat,
    cost: real)

  const Zero := Counters(0, 0, 0, 0.0, 0.0, 0, 0.0, 0, 0.0)

  /**
   * Counts one lead: one more lead; a win adds its truthy sale price and, when
   * the cycle is truthy, its cycle; a loss; a truthy response time; and for a
   * channel a truthy lead cost.
   */
  function CountLead(c: Counters, l: PerfLead, countCost: bool): Counters {
    var won := IsWon(l);
    var cycle := won && TruthyInt(l.salesCycleDays);
    var response := TruthyReal(l.responseTimeHours);
    Counters(
      c.totalLeads + 1,
      c.won + (if won then 1 else 0),
      c.lost + (if IsLost(l) then 1 else 0),
      c.revenue + (if won && TruthyReal(l.salePrice) then l.salePrice.value else 0.0),
      c.responseSum + (if response then l.responseTimeHours.value else 0.0),
      c.withResponse + (if response then 1 else 0),
      c.cycleSum + (if cycle then l.salesCycleDays.value as real else 0.0),
      c.withCycle + (if cycle then 1 else 0),
      c.cost + (if countCost && TruthyReal(l.leadCost) then l.leadCost.value else 0.0))
  }

  /** The counters of a list of leads counted one after the other from zero. */
  function CountAll(ls: seq<PerfLead>, countCost: bool): Counters {
    if ls == [] then Zero else CountLead(CountAll(ls[..|ls| - 1], countCost), ls[|ls| - 1], countCost)
  }

  function CountWon(ls: seq<PerfLead>): nat {
    if ls == [] then 0 else CountWon(ls[..|ls| - 1]) + (if IsWon(ls[|ls| - 1]) then 1 else 0)
  }

  /** The counters count every lead once, and no lead both as won and as lost. */
  lemma {:induction false} CountAllShape(ls: seq<PerfLead>, countCost: bool)
    ensures var c := CountAll(ls, countCost);
              c.totalLeads == |ls| && c.won + c.lost <= c.totalLeads
              && c.withCycle <= c.won && c.withResponse <= c.totalLeads && c.won == CountWon(ls)
              && (c.withResponse == 0 ==> c.responseSum == 0.0)
              && (c.withCycle == 0 ==> c.cycleSum == 0.0)
              && (c.won == 0 ==> c.revenue == 0.0)
              && (!countCost ==> c.cost == 0.0)
  {
    if ls != [] {
      CountAllShape(ls[..|ls| - 1], countCost);
    }
  }

  /** The total of the truthy lead costs, the channel cost of `ls`. */
  function CostSum(ls: seq<PerfLead>): real {
    if ls == [] then 0.0
    else CostSum(ls[..|ls| - 1]) + (if TruthyReal(ls[|ls| - 1].leadCost) then ls[|ls| - 1].leadCost.value else 0.0)
  }

  /** A channel's cost is the sum of its leads' costs, a missing or zero cost counting as 0. */
  lemma {:induction false} ChannelCostIsCostSum(ls: seq<PerfLead>)
    ensures CountAll(ls, true).cost == CostSum(ls)
  {
    if ls != [] {
      ChannelCostIsCostSum(ls[..|ls| - 1]);
    }
  }

  // ---------------------------------------------------------------------------
  // Grouping, as an insertion-ordered dictionary
  // ---------------------------------------------------------------------------

  /** One dictionary entry: its key, the row that created it, and its counters. */
  datatype Group<K> = Group(key: K, first: PerfLead, c: Counters)

  function Find<K(==)>(gs: seq<Group<K>>, k: K): (r: Option<nat>)
    ensures r.Some? ==> r.value < |gs| && gs[r.value].key == k
    ensures r.None? ==> forall i :: 0 <= i < |gs| ==> gs[i].key != k
  {
    if gs == [] then None
    else if gs[|gs| - 1].key == k then Some(|gs| - 1)
    else Find(gs[..|gs| - 1], k)
  }

  /** Counts `l` into the group of its key, creating the group at the end when the key is new. */
  function AddToGroups<K(==)>(gs: seq<Group<K>>, l: PerfLead, keyOf: PerfLead -> K, countCost: bool): seq<Group<K>> {
    var k := keyOf(l);
    match Find(gs, k)
    case Some(i) => gs[i := gs[i].(c := CountLead(gs[i].c, l, countCost))]
    case None => gs + [Group(k, l, CountLead(Zero, l, countCost))]
  }

  /** The dictionary after counting every lead, in order. */
  function GroupLeads<K(==)>(ls: seq<PerfLead>, keyOf: PerfLead -> K, countCost: bool): seq<Group<K>> {
    if ls == [] then [] else AddToGroups(GroupLeads(ls[..|ls| - 1], keyOf, countCost), ls[|ls| - 1], keyOf, countCost)
  }

  /** The leads whose key is `k`, in order. */
  function LeadsWithKey<K(==)>(ls: seq<PerfLead>, keyOf: PerfLead -> K, k: K): seq<PerfLead> {
    if ls == [] then []
    else LeadsWithKey(ls[..|ls| - 1], keyOf, k) + (if keyOf(ls[|ls| - 1]) == k then [ls[|ls| - 1]] else [])
  }

  predicate DistinctKeys<K(==)>(gs: seq<Group<K>>) {
    forall i, j :: 0 <= i < j < |gs| ==> gs[i].key != gs[j].key
  }

  lemma LeadsWithKeySnoc<K>(ls: seq<PerfLead>, keyOf: PerfLead -> K, k: K)
    requires ls != []
    ensures LeadsWithKey(ls, keyOf, k)
            == LeadsWithKey(ls[..|ls| - 1], keyOf, k) + (if keyOf(ls[|ls| - 1]) == k then [ls[|ls| - 1]] else [])
  {
  }

  /** Each new key is appended at the end, so the dictionary never holds a key twice. */
  lemma {:induction false} GroupLeadsDistinct<K>(ls: seq<PerfLead>, keyOf: PerfLead -> K, countCost: bool)
    ensures DistinctKeys(GroupLeads(ls, keyOf, countCost))
  {
    if ls != [] {
      GroupLeadsDistinct(ls[..|ls| - 1], keyOf, countCost);
    }
  }

  /** A key has a group exactly when some lead has that key. */
  lemma {:induction false} GroupLeadsComplete<K>(ls: seq<PerfLead>, keyOf: PerfLead -> K, countCost: bool, k: K)
    ensures Find(GroupLeads(ls, keyOf, countCost), k).None? <==> LeadsWithKey(ls, keyOf, k) == []
  {
    if ls != [] {
      var init := ls[..|ls| - 1];
      GroupLeadsComplete(init, keyOf, countCost, k);
      LeadsWithKeySnoc(ls, keyOf, k);
      var prev := GroupLeads(init, keyOf, countCost);
      var l := ls[|ls| - 1];
      if Find(prev, keyOf(l)).None? {
        var gs := prev + [Group(keyOf(l), l, CountLead(Zero, l, countCost))];
        assert GroupLeads(ls, keyOf, countCost) == gs;
        if keyOf(l) != k {
          assert Find(gs, k) == Find(prev, k) by { assert gs[..|gs| - 1] == prev; }
        }
      } else {
        var i := Find(prev, keyOf(l)).value;
        var gs := prev[i := prev[i].(c := CountLead(prev[i].c, l, countCost))];
        assert GroupLeads(ls, keyOf, countCost) == gs;
        FindAfterUpdate(prev, i, gs[i], k);
      }
    }
  }

  /** Replacing the counters of a group does not move any key. */
  lemma {:induction false} FindAfterUpdate<K>(gs: seq<Group<K>>, i: nat, g: Group<K>, k: K)
    requires i < |gs| && g.key == gs[i].key
    ensures Find(gs[i := g], k) == Find(gs, k)
  {
    if i < |gs| - 1 {
      FindAfterUpdate(gs[..|gs| - 1], i, g, k);
      assert gs[i := g][..|gs| - 1] == gs[..|gs| - 1][i := g];
    } else {
      assert gs[i := g][..|gs| - 1] == gs[..|gs| - 1];
    }
  }

  /** Each group's counters are exactly the counts over the leads with its key. */
  lemma {:induction false} GroupLeadsCounts<K>(ls: seq<PerfLead>, keyOf: PerfLead -> K, countCost: bool, j: nat)
    requires j < |GroupLeads(ls, keyOf, countCost)|
    ensures var g := GroupLeads(ls, keyOf, countCost)[j];
              g.c == CountAll(LeadsWithKey(ls, keyOf, g.key), countCost)
  {
    var init := ls[..|ls| - 1];
    var l := ls[|ls| - 1];
    var prev := GroupLeads(init, keyOf, countCost);
    var gs := GroupLeads(ls, keyOf, countCost);
    var k := gs[j].key;
    LeadsWithKeySnoc(ls, keyOf, k);
    var mine := LeadsWithKey(init, keyOf, k);
    if Find(prev, keyOf(l)).None? {
      assert gs == prev + [Group(keyOf(l), l, CountLead(Zero, l, countCost))];
      if j < |prev| {
        GroupLeadsCounts(init, keyOf, countCost, j);
        assert gs[j] == prev[j];
        assert prev[j].key != keyOf(l);
        assert LeadsWithKey(ls, keyOf, k) == mine + [];
        assert mine + [] == mine;
      } else {
        GroupLeadsComplete(init, keyOf, countCost, k);
        assert mine == [];
        assert LeadsWithKey(ls, keyOf, k) == [l];
        assert [l][..0] == [];
      }
    } else {
      var i := Find(prev, keyOf(l)).value;
      assert gs == prev[i := prev[i].(c := CountLead(prev[i].c, l, countCost))];
      GroupLeadsCounts(init, keyOf, countCost, j);
      if j == i {
        assert (mine + [l])[..|mine|] == mine;
      } else {
        GroupLeadsDistinct(init, keyOf, countCost);
        assert gs[j] == prev[j];
        assert prev[j].key != prev[i].key;
        assert LeadsWithKey(ls, keyOf, k) == mine + [];
        assert mine + [] == mine;
      }
    }
  }

  /**
   * There is one group per distinct key, and each group's counters are exactly
   * the counts over the leads with its key.
   */
  lemma GroupLeadsExact<K>(ls: seq<PerfLead>, keyOf: PerfLead -> K, countCost: bool)
    ensures var gs := GroupLeads(ls, keyOf, countCost);
              DistinctKeys(gs)
              && (forall i :: 0 <= i < |gs| ==> gs[i].c == CountAll(LeadsWithKey(ls, keyOf, gs[i].key), countCost))
              && (forall k :: Find(gs, k).None? <==> LeadsWithKey(ls, keyOf, k) == [])
  {
    var gs := GroupLeads(ls, keyOf, countCost);
    GroupLeadsDistinct(ls, keyOf, countCost);
    forall i | 0 <= i < |gs| ensures gs[i].c == CountAll(LeadsWithKey(ls, keyOf, gs[i].key), countCost) {
      GroupLeadsCounts(ls, keyOf, countCost, i);
    }
    forall k ensures Find(gs, k).None? <==> LeadsWithKey(ls, keyOf, k) == [] {
      GroupLeadsComplete(ls, keyOf, countCost, k);
    }
  }

  function SumTotalLeads<K>(gs: seq<Group<K>>): nat {
    if gs == [] then 0 else SumTotalLeads(gs[..|gs| - 1]) + gs[|gs| - 1].c.totalLeads
  }

  lemma {:induction false} SumTotalLeadsUpdate<K>(gs: seq<Group<K>>, i: nat, g: Group<K>)
    requires i < |gs|
    ensures SumTotalLeads(gs[i := g]) == SumTotalLeads(gs) - gs[i].c.totalLeads + g.c.totalLeads
  {
    if i < |gs| - 1 {
      SumTotalLeadsUpdate(gs[..|gs| - 1], i, g);
      assert gs[i := g][..|gs| - 1] == gs[..|gs| - 1][i := g];
    } else {
      assert gs[i := g][..|gs| - 1] == gs[..|gs| - 1];
    }
  }

  /** Every lead increments exactly one group: the group totals add up to the number of leads. */
  lemma {:induction false} GroupTotalsSumToLeads<K>(ls: seq<PerfLead>, keyOf: PerfLead -> K, countCost: bool)
    ensures SumTotalLeads(GroupLeads(ls, keyOf, countCost)) == |ls|
  {
    if ls != [] {
      var prev := GroupLeads(ls[..|ls| - 1], keyOf, countCost);
      GroupTotalsSumToLeads(ls[..|ls| - 1], keyOf, countCost);
      var l := ls[|ls| - 1];
      match Find(prev, keyOf(l))
      case Some(i) =>
        SumTotalLeadsUpdate(prev, i, prev[i].(c := CountLead(prev[i].c, l, countCost)));
      case None =>
        var gs := prev + [Group(keyOf(l), l, CountLead(Zero, l, countCost))];
        assert gs[..|gs| - 1] == prev;
    }
  }

  // ---------------------------------------------------------------------------
  // Sellers
  // ---------------------------------------------------------------------------

  /** Sellers are keyed by `responsible_user_name`; `None` is a key of its own. */
  function SellerKey(l: PerfLead): Option<string> {
    l.userName
  }

  /** One row of `performance_vendedores` before the completion rate is added. */
  datatype SellerPerf = SellerPerf(
    userName: Option<string>,
    userRole: Option<string>,
    c: Counters,
    avgResponse: real,
    avgCycle: real,
    winRate: real,
    ticket: real,
    conversionRate: real,
    totalActivities: nat,
    completedActivities: nat,
    contactedLeads: nat)

  /** The sum divided by the count once something was counted; before that the sum (still 0) is kept. */
  function Average(sum: real, n: nat): (r: real)
    ensures n == 0 ==> r == sum
    ensures n > 0 ==> r * n as real == sum
  {
    if n > 0 then sum / n as real else sum
  }

  /** The derived metrics of one seller; averages stay 0 when nothing was counted. */
  function FinalizeSeller(g: Group<Option<string>>): SellerPerf {
    var c := g.c;
    SellerPerf(
      g.key, g.first.userRole, c,
      Average(c.responseSum, c.withResponse),
      Average(c.cycleSum, c.withCycle),
      Percent(c.won as real, (c.won + c.lost) as real),
      Ratio(c.revenue, c.won as real),
      Percent(c.won as real, c.totalLeads as real),
      0, 0, 0)
  }

  function FinalizeSellers(gs: seq<Group<Option<string>>>): (r: seq<SellerPerf>)
    ensures |r| == |gs|
    ensures forall i :: 0 <= i < |gs| ==> r[i] == FinalizeSeller(gs[i])
  {
    if gs == [] then [] else FinalizeSellers(gs[..|gs| - 1]) + [FinalizeSeller(gs[|gs| - 1])]
  }

  /** A seller's win rate and conversion rate lie in [0, 100]; nothing closed gives 0, no win gives ticket 0. */
  lemma SellerRatesBounded(g: Group<Option<string>>, ls: seq<PerfLead>)
    requires g.c == CountAll(ls, false)
    ensures var p := FinalizeSeller(g);
              0.0 <= p.winRate <= 100.0 && 0.0 <= p.conversionRate <= 100.0
              && (g.c.won + g.c.lost == 0 ==> p.winRate == 0.0)
              && (g.c.won == 0 ==> p.ticket == 0.0)
              && (g.c.withResponse == 0 ==> p.avgResponse == 0.0)
              && (g.c.withCycle == 0 ==> p.avgCycle == 0.0)
  {
    CountAllShape(ls, false);
  }

  /** Adds one activity row to the seller of that name, if there is one. */
  function AddActivity(ps: seq<SellerPerf>, a: ActivityRow): seq<SellerPerf> {
    if ps == [] then []
    else
      var p := ps[|ps| - 1];
      AddActivity(ps[..|ps| - 1], a)
      + [if p.userName == a.userName
         then p.(totalActivities := p.totalActivities + a.total,
                 completedActivities := p.completedActivities + a.completed,
                 contactedLeads := p.contactedLeads + a.contacted)
         else p]
  }

  function AddActivities(ps: seq<SellerPerf>, acts: seq<ActivityRow>): seq<SellerPerf> {
    if acts == [] then ps else AddActivity(AddActivities(ps, acts[..|acts| - 1]), acts[|acts| - 1])
  }

  /** Activity rows never create a seller and change only the activity totals of the seller they name. */
  lemma {:induction false} AddActivityKeepsSellers(ps: seq<SellerPerf>, a: ActivityRow)
    ensures |AddActivity(ps, a)| == |ps|
    ensures forall i :: 0 <= i < |ps| ==>
              AddActivity(ps, a)[i].userName == ps[i].userName && AddActivity(ps, a)[i].c == ps[i].c
              && AddActivity(ps, a)[i].winRate == ps[i].winRate
              && (ps[i].userName != a.userName ==> AddActivity(ps, a)[i] == ps[i])
  {
    if ps != [] {
      AddActivityKeepsSellers(ps[..|ps| - 1], a);
    }
  }

  /** An activity row of a user without leads changes nothing. */
  lemma {:induction false} AddActivityOfStranger(ps: seq<SellerPerf>, a: ActivityRow)
    requires forall i :: 0 <= i < |ps| ==> ps[i].userName != a.userName
    ensures AddActivity(ps, a) == ps
  {
    if ps != [] {
      AddActivityOfStranger(ps[..|ps| - 1], a);
    }
  }

  /** Completed activities never exceed the total when each row's do not. */
  lemma {:induction false} AddActivityKeepsCompletedBounded(ps: seq<SellerPerf>, a: ActivityRow)
    requires a.completed <= a.total
    requires forall i :: 0 <= i < |ps| ==> ps[i].completedActivities <= ps[i].totalActivities
    ensures forall i :: 0 <= i < |AddActivity(ps, a)| ==>
              AddActivity(ps, a)[i].completedActivities <= AddActivity(ps, a)[i].totalActivities
  {
    if ps != [] {
      AddActivityKeepsCompletedBounded(ps[..|ps| - 1], a);
    }
  }

  /** The sellers `transform_performance_data` returns. */
  function SellersOf(ls: seq<PerfLead>, acts: seq<ActivityRow>): seq<SellerPerf> {
    AddActivities(FinalizeSellers(GroupLeads(ls, SellerKey, false)), acts)
  }

  // ---------------------------------------------------------------------------
  // Channels
  // ---------------------------------------------------------------------------

  /** How an f-string renders an optional column: `None` for `NULL`. */
  function Show(x: Option<string>): string {
    if x.Some? then x.value else "None"
  }

  /** The channel key `"{canal}|{utm_source}|{utm_medium}"`. */
  function ChannelKey(l: PerfLead): string {
    Show(l.canal) + "|" + Show(l.utmSource) + "|" + Show(l.utmMedium)
  }

  /** Because `NULL` renders as "None", a `NULL` channel and the channel named "None" share a key. */
  lemma ChannelKeyMergesNullWithNone(l: PerfLead)
    requires l.canal.None?
    ensures ChannelKey(l) == ChannelKey(l.(canal := Some("None")))
  {
  }

  /** One row of `performance_canais`. */
  datatype ChannelPerf = ChannelPerf(
    canal: Option<string>,
    utmSource: Option<string>,
    utmMedium: Option<string>,
    c: Counters,
    avgResponse: real,
    avgCycle: real,
    winRate: real,
    conversionRate: real,
    costPerLead: real,
    roi: real,
    ticket: real)

  /** `(receita - custo) / custo * 100` when there is a cost, else 0. */
  function Roi(revenue: real, cost: real): (r: real)
    ensures cost <= 0.0 ==> r == 0.0
    ensures cost > 0.0 ==> r * cost == (revenue - cost) * 100.0
    ensures cost > 0.0 && revenue >= cost ==> r >= 0.0
    ensures cost > 0.0 && revenue < cost ==> r < 0.0
  {
    if cost > 0.0 then (revenue - cost) / cost * 100.0 else 0.0
  }

  /** The derived metrics of one channel, stored with the triple of the row that created it. */
  function FinalizeChannel(g: Group<string>): ChannelPerf {
    var c := g.c;
    ChannelPerf(
      g.first.canal, g.first.utmSource, g.first.utmMedium, c,
      Average(c.responseSum, c.withResponse),
      Average(c.cycleSum, c.withCycle),
      Percent(c.won as real, (c.won + c.lost) as real),
      Percent(c.won as real, c.totalLeads as real),
      Ratio(c.cost, c.totalLeads as real),
      Roi(c.revenue, c.cost),
      Ratio(c.revenue, c.won as real))
  }

  function FinalizeChannels(gs: seq<Group<string>>): (r: seq<ChannelPerf>)
    ensures |r| == |gs|
    ensures forall i :: 0 <= i < |gs| ==> r[i] == FinalizeChannel(gs[i])
  {
    if gs == [] then [] else FinalizeChannels(gs[..|gs| - 1]) + [FinalizeChannel(gs[|gs| - 1])]
  }

  /** The channels `transform_performance_data` returns. */
  function ChannelsOf(ls: seq<PerfLead>): seq<ChannelPerf> {
    FinalizeChannels(GroupLeads(ls, ChannelKey, true))
  }

  /** Cost per lead times the number of leads gives back the cost, once there are leads. */
  lemma RatioTimesCount(total: real, n: nat)
    ensures Ratio(total, n as real) * n as real == (if n > 0 then total else 0.0)
  {
  }

  /**
   * The channel row `p` agrees with its leads `ls`: it counts each of them, its
   * cost is their summed cost, its rates lie in [0, 100] and its cost per lead
   * times the number of leads is that cost.
   */
  predicate ChannelRowOf(p: ChannelPerf, ls: seq<PerfLead>) {
    ChannelTotals(p, ls) && ChannelRatesInRange(p)
  }

  predicate ChannelTotals(p: ChannelPerf, ls: seq<PerfLead>) {
    p.c.totalLeads == |ls| && p.c.cost == CostSum(ls)
    && p.costPerLead * |ls| as real == (if |ls| > 0 then CostSum(ls) else 0.0)
  }

  predicate ChannelRatesInRange(p: ChannelPerf) {
    0.0 <= p.winRate <= 100.0 && 0.0 <= p.conversionRate <= 100.0
    && (p.c.won == 0 ==> p.ticket == 0.0)
  }

  /** The row finalized from a channel's counters agrees with the leads counted. */
  lemma ChannelRatesBounded(g: Group<string>, ls: seq<PerfLead>)
    requires g.c == CountAll(ls, true)
    ensures ChannelRowOf(FinalizeChannel(g), ls)
  {
    var p := FinalizeChannel(g);
    assert p.c == g.c && p.costPerLead == Ratio(g.c.cost, g.c.totalLeads as real);
    ChannelTotalsHold(p, ls);
    ChannelRatesHold(g, ls);
  }

  lemma ChannelTotalsHold(p: ChannelPerf, ls: seq<PerfLead>)
    requires p.c == CountAll(ls, true)
    requires p.costPerLead == Ratio(p.c.cost, p.c.totalLeads as real)
    ensures ChannelTotals(p, ls)
  {
    CountAllShape(ls, true);
    ChannelCostIsCostSum(ls);
    CostPerLeadScalesBack(p, ls);
  }

  lemma ChannelRatesHold(g: Group<string>, ls: seq<PerfLead>)
    requires g.c == CountAll(ls, true)
    ensures ChannelRatesInRange(FinalizeChannel(g))
  {
    var c := g.c;
    CountAllShape(ls, true);
    var p := FinalizeChannel(g);
    assert p.winRate == Percent(c.won as real, (c.won + c.lost) as real);
    assert p.conversionRate == Percent(c.won as real, c.totalLeads as real);
    assert p.ticket == Ratio(c.revenue, c.won as real);
  }

  lemma CostPerLeadScalesBack(p: ChannelPerf, ls: seq<PerfLead>)
    requires p.c.cost == CostSum(ls)
    requires p.costPerLead == Ratio(p.c.cost, |ls| as real)
    ensures p.costPerLead * |ls| as real == (if |ls| > 0 then CostSum(ls) else 0.0)
  {
    RatioTimesCount(p.c.cost, |ls|);
  }

  /** Every group was created by a lead with its key. */
  lemma GroupHasLeads<K>(ls: seq<PerfLead>, keyOf: PerfLead -> K, countCost: bool, i: nat)
    requires i < |GroupLeads(ls, keyOf, countCost)|
    ensures LeadsWithKey(ls, keyOf, GroupLeads(ls, keyOf, countCost)[i].key) != []
  {
    var gs := GroupLeads(ls, keyOf, countCost);
    GroupLeadsComplete(ls, keyOf, countCost, gs[i].key);
    assert Find(gs, gs[i].key).Some?;
  }

  /**
   * Each channel row stands for a non-empty set of leads, those with its key,
   * and agrees with them in the sense of `ChannelRowOf`.
   */
  lemma ChannelMetrics(ls: seq<PerfLead>, i: nat)
    requires i < |GroupLeads(ls, ChannelKey, true)|
    ensures var g := GroupLeads(ls, ChannelKey, true)[i];
            var mine := LeadsWithKey(ls, ChannelKey, g.key);
              mine != [] && ChannelRowOf(ChannelsOf(ls)[i], mine)
  {
    var g := GroupLeads(ls, ChannelKey, true)[i];
    var mine := LeadsWithKey(ls, ChannelKey, g.key);
    GroupLeadsCounts(ls, ChannelKey, true, i);
    GroupHasLeads(ls, ChannelKey, true, i);
    ChannelRatesBounded(g, mine);
    assert ChannelsOf(ls)[i] == FinalizeChannel(g);
  }

  // ---------------------------------------------------------------------------
  // The transformation
  // ---------------------------------------------------------------------------

  /** Counts every lead into the dictionary of its key, inserting new keys at the end. */
  method CountIntoGroups<K(==)>(ls: seq<PerfLead>, keyOf: PerfLead -> K, countCost: bool) returns (gs: seq<Group<K>>)
    ensures gs == GroupLeads(ls, keyOf, countCost)
  {
    gs := [];
    var i := 0;
    while i < |ls|
      invariant 0 <= i <= |ls|
      invariant gs == GroupLeads(ls[..i], keyOf, countCost)
    {
      var l := ls[i];
      assert ls[..i + 1][..i] == ls[..i];
      var k := keyOf(l);
      var found := Find(gs, k);
      if found.Some? {
        var j := found.value;
        gs := gs[j := gs[j].(c := CountLead(gs[j].c, l, countCost))];
      } else {
        gs := gs + [Group(k, l, CountLead(Zero, l, countCost))];
      }
      i := i + 1;
    }
    assert ls[..i] == ls;
  }

  /**
   * `transform_performance_data`: the seller rows (with activity totals) and
   * the channel rows, in first-appearance order.
   */
  method TransformPerformanceData(ls: seq<PerfLead>, acts: seq<ActivityRow>)
    returns (sellers: seq<SellerPerf>, channels: seq<ChannelPerf>)
    ensures sellers == SellersOf(ls, acts)
    ensures channels == ChannelsOf(ls)
  {
    var sellerGroups := CountIntoGroups(ls, SellerKey, false);
    var finalized := FinalizeSellerGroups(sellerGroups);
    sellers := AddActivityRows(finalized, acts);
    var channelGroups := CountIntoGroups(ls, ChannelKey, true);
    channels := FinalizeChannelGroups(channelGroups);
  }

  /** The loop finalizing each seller's counters, in group order. */
  method FinalizeSellerGroups(gs: seq<Group<Option<string>>>) returns (rows: seq<SellerPerf>)
    ensures rows == FinalizeSellers(gs)
  {
    rows := [];
    var i := 0;
    while i < |gs|
      invariant 0 <= i <= |gs|
      invariant rows == FinalizeSellers(gs[..i])
    {
      assert gs[..i + 1][..i] == gs[..i];
      rows := rows + [FinalizeSeller(gs[i])];
      i := i + 1;
    }
    assert gs[..i] == gs;
  }

  /** The loop folding the activity rows into the seller rows. */
  method AddActivityRows(ps: seq<SellerPerf>, acts: seq<ActivityRow>) returns (rows: seq<SellerPerf>)
    ensures rows == AddActivities(ps, acts)
  {
    rows := ps;
    var k := 0;
    while k < |acts|
      invariant 0 <= k <= |acts|
      invariant rows == AddActivities(ps, acts[..k])
    {
      assert acts[..k + 1][..k] == acts[..k];
      rows := AddActivity(rows, acts[k]);
      k := k + 1;
    }
    assert acts[..k] == acts;
  }

  /** The loop finalizing each channel's counters, in group order. */
  method FinalizeChannelGroups(gs: seq<Group<string>>) returns (rows: seq<ChannelPerf>)
    ensures rows == FinalizeChannels(gs)
  {
    rows := [];
    var j := 0;
    while j < |gs|
      invariant 0 <= j <= |gs|
      invariant rows == FinalizeChannels(gs[..j])
    {
      assert gs[..j + 1][..j] == gs[..j];
      rows := rows + [FinalizeChannel(gs[j])];
      j := j + 1;
    }
    assert gs[..j] == gs;
  }

  // ---------------------------------------------------------------------------
  // Loading
  // ---------------------------------------------------------------------------

  /** `taxa_conclusao_atividades`: completed over total activities, 0 without activities. */
  function CompletionRate(p: SellerPerf): (r: real)
    ensures p.totalActivities == 0 ==> r == 0.0
    ensures p.completedActivities <= p.totalActivities ==> 0.0 <= r <= 100.0
  {
    Percent(p.completedActivities as real, p.totalActivities as real)
  }

  /** A stored row and the day (`created_date`) it belongs to. */
  datatype Dated<T> = Dated(day: int, row: T)

  function OtherDays<T(!new)>(rows: seq<Dated<T>>, day: int): (r: seq<Dated<T>>)
    ensures forall x :: x in r <==> x in rows && x.day != day
  {
    if rows == [] then []
    else OtherDays(rows[..|rows| - 1], day) + (if rows[|rows| - 1].day != day then [rows[|rows| - 1]] else [])
  }

  function Stamp<T>(incoming: seq<T>, day: int): (r: seq<Dated<T>>)
    ensures |r| == |incoming|
    ensures forall i :: 0 <= i < |r| ==> r[i] == Dated(day, incoming[i])
  {
    if incoming == [] then [] else Stamp(incoming[..|incoming| - 1], day) + [Dated(day, incoming[|incoming| - 1])]
  }

  /** The table after deleting the rows of `day` and inserting `incoming` for that day. */
  function ReplaceDay<T(!new)>(rows: seq<Dated<T>>, day: int, incoming: seq<T>): seq<Dated<T>> {
    OtherDays(rows, day) + Stamp(incoming, day)
  }

  lemma {:induction false} OtherDaysOfStamp<T(!new)>(incoming: seq<T>, day: int)
    ensures OtherDays(Stamp(incoming, day), day) == []
  {
    if incoming != [] {
      OtherDaysOfStamp(incoming[..|incoming| - 1], day);
    }
  }

  lemma {:induction false} OtherDaysAppend<T(!new)>(a: seq<Dated<T>>, b: seq<Dated<T>>, day: int)
    ensures OtherDays(a + b, day) == OtherDays(a, day) + OtherDays(b, day)
  {
    if b != [] {
      OtherDaysAppend(a, b[..|b| - 1], day);
      assert (a + b)[..|a + b| - 1] == a + b[..|b| - 1];
    } else {
      assert a + b == a;
    }
  }

  lemma {:induction false} OtherDaysIdempotent<T(!new)>(rows: seq<Dated<T>>, day: int)
    ensures OtherDays(OtherDays(rows, day), day) == OtherDays(rows, day)
  {
    if rows != [] {
      var init := rows[..|rows| - 1];
      var last := rows[|rows| - 1];
      OtherDaysIdempotent(init, day);
      OtherDaysAppend(OtherDays(init, day), if last.day != day then [last] else [], day);
      if last.day != day {
        assert [last][..0] == [];
      }
    }
  }

  /**
   * After the load, the rows of `day` are exactly the incoming rows, every other
   * day keeps its rows, and loading the same rows twice is loading them once.
   */
  lemma ReplaceDayCorrect<T(!new)>(rows: seq<Dated<T>>, day: int, incoming: seq<T>)
    ensures var after := ReplaceDay(rows, day, incoming);
              (forall x :: x in after && x.day == day ==> x.row in incoming)
              && (forall t :: t in incoming ==> Dated(day, t) in after)
              && OtherDays(after, day) == OtherDays(rows, day)
              && ReplaceDay(after, day, incoming) == after
  {
    var after := ReplaceDay(rows, day, incoming);
    OtherDaysAppend(OtherDays(rows, day), Stamp(incoming, day), day);
    OtherDaysIdempotent(rows, day);
    OtherDaysOfStamp(incoming, day);
    assert OtherDays(after, day) == OtherDays(rows, day);
    forall t | t in incoming ensures Dated(day, t) in after {
      var i :| 0 <= i < |incoming| && incoming[i] == t;
      assert Stamp(incoming, day)[i] == Dated(day, t);
    }
  }

  /**
   * A row of `performance_canais` as stored: the UTM columns hold
   * `utm_source or ''` and `utm_medium or ''`, so a `NULL` value is stored as "".
   */
  datatype ChannelRow = ChannelRow(canal: Option<string>, utmSource: string, utmMedium: string, perf: ChannelPerf)

  function Stored(p: ChannelPerf): (r: ChannelRow)
    ensures r.perf == p && r.canal == p.canal
    ensures r.utmSource == "" <==> p.utmSource in {None, Some("")}
    ensures r.utmMedium == "" <==> p.utmMedium in {None, Some("")}
    ensures p.utmSource.Some? ==> r.utmSource == p.utmSource.value
    ensures p.utmMedium.Some? ==> r.utmMedium == p.utmMedium.value
  {
    ChannelRow(p.canal, p.utmSource.GetOr(""), p.utmMedium.GetOr(""), p)
  }

  /**
   * Two rows of one day clash on `unique_canal_date`: same channel and UTM
   * columns. A `NULL` channel never clashes, as `NULL`s are distinct in a unique key.
   */
  predicate SameChannelKey(a: Dated<ChannelRow>, b: Dated<ChannelRow>) {
    a.day == b.day && a.row.canal.Some? && a.row.canal == b.row.canal
    && a.row.utmSource == b.row.utmSource && a.row.utmMedium == b.row.utmMedium
  }

  /** One channel `INSERT`: a row clashing with a stored one fails and is skipped. */
  function InsertChannel(rows: seq<Dated<ChannelRow>>, x: Dated<ChannelRow>): seq<Dated<ChannelRow>> {
    if exists y :: y in rows && SameChannelKey(y, x) then rows else rows + [x]
  }

  /** The channel table after one `INSERT` per channel, stamped with `day`. */
  function InsertChannels(rows: seq<Dated<ChannelRow>>, day: int, channels: seq<ChannelPerf>): seq<Dated<ChannelRow>> {
    if channels == [] then rows
    else InsertChannel(InsertChannels(rows, day, channels[..|channels| - 1]), Dated(day, Stored(channels[|channels| - 1])))
  }

  /** The channel table after deleting the rows of `day` and inserting `channels` for that day. */
  function ReplaceChannelDay(rows: seq<Dated<ChannelRow>>, day: int, channels: seq<ChannelPerf>): seq<Dated<ChannelRow>> {
    InsertChannels(OtherDays(rows, day), day, channels)
  }

  /** No two rows of `day` clash on the unique key. */
  predicate DayUnique(rows: seq<Dated<ChannelRow>>, day: int) {
    forall i, j :: 0 <= i < j < |rows| && rows[j].day == day ==> !SameChannelKey(rows[i], rows[j])
  }

  /** Inserting only appends: the rows before stay a prefix, and each added row is a stored channel of `day`. */
  lemma {:induction false} InsertChannelsAppends(rows: seq<Dated<ChannelRow>>, day: int, channels: seq<ChannelPerf>)
    ensures var after := InsertChannels(rows, day, channels);
              |rows| <= |after| && after[..|rows|] == rows
              && forall k :: |rows| <= k < |after| ==>
                   after[k].day == day && after[k].row == Stored(after[k].row.perf) && after[k].row.perf in channels
  {
    if channels != [] {
      var init := channels[..|channels| - 1];
      InsertChannelsAppends(rows, day, init);
      var before := InsertChannels(rows, day, init);
      assert forall q :: q in init ==> q in channels;
      assert before[..|rows|] == rows;
      assert (before + [Dated(day, Stored(channels[|channels| - 1]))])[..|rows|] == rows;
    }
  }

  /** Every row after inserting was there before or is a stored channel of `day`. */
  lemma {:induction false} InsertChannelsFrom(rows: seq<Dated<ChannelRow>>, day: int, channels: seq<ChannelPerf>)
    ensures forall x :: x in InsertChannels(rows, day, channels) ==>
              x in rows || (x.day == day && x.row == Stored(x.row.perf) && x.row.perf in channels)
  {
    if channels != [] {
      var init := channels[..|channels| - 1];
      InsertChannelsFrom(rows, day, init);
      assert forall q :: q in init ==> q in channels;
    }
  }

  /** On top of rows of other days, no two rows of `day` clash after inserting. */
  lemma {:induction false} InsertChannelsUnique(rows: seq<Dated<ChannelRow>>, day: int, channels: seq<ChannelPerf>)
    requires forall x :: x in rows ==> x.day != day
    ensures DayUnique(InsertChannels(rows, day, channels), day)
  {
    if channels != [] {
      var init := channels[..|channels| - 1];
      var x := Dated(day, Stored(channels[|channels| - 1]));
      InsertChannelsUnique(rows, day, init);
      var before := InsertChannels(rows, day, init);
      if !(exists y :: y in before && SameChannelKey(y, x)) {
        var after := before + [x];
        forall i, j | 0 <= i < j < |after| && after[j].day == day
          ensures !SameChannelKey(after[i], after[j])
        {
          if j == |before| {
            assert after[i] in before;
          } else {
            assert after[i] == before[i] && after[j] == before[j];
          }
        }
      }
    }
  }

  /** The channel `p` of `day` is in `rows`, or a row there clashes with it. */
  predicate StoredOrClashes(rows: seq<Dated<ChannelRow>>, day: int, p: ChannelPerf) {
    exists y :: y in rows && (y == Dated(day, Stored(p)) || SameChannelKey(y, Dated(day, Stored(p))))
  }

  /** One channel is stored, or clashes with a row stored before it. */
  lemma {:induction false} InsertChannelCovers(rows: seq<Dated<ChannelRow>>, day: int, channels: seq<ChannelPerf>,
                                               q: ChannelPerf)
    requires q in channels
    ensures StoredOrClashes(InsertChannels(rows, day, channels), day, q)
  {
    var init := channels[..|channels| - 1];
    var x := Dated(day, Stored(channels[|channels| - 1]));
    var before := InsertChannels(rows, day, init);
    var after := InsertChannels(rows, day, channels);
    assert forall y :: y in before ==> y in after;
    assert channels == init + [channels[|channels| - 1]];
    if q in init {
      InsertChannelCovers(rows, day, init, q);
      var y :| y in before && (y == Dated(day, Stored(q)) || SameChannelKey(y, Dated(day, Stored(q))));
      assert y in after;
    } else if exists y :: y in before && SameChannelKey(y, x) {
      var y :| y in before && SameChannelKey(y, x);
      assert y in after;
    } else {
      assert x in after;
    }
  }

  /** Every channel is stored, or clashes with a row stored before it. */
  lemma InsertChannelsCover(rows: seq<Dated<ChannelRow>>, day: int, channels: seq<ChannelPerf>)
    ensures forall p :: p in channels ==> StoredOrClashes(InsertChannels(rows, day, channels), day, p)
  {
    forall p | p in channels
      ensures StoredOrClashes(InsertChannels(rows, day, channels), day, p)
    {
      InsertChannelCovers(rows, day, channels, p);
    }
  }

  /** Rows all of one day leave nothing when that day is deleted. */
  lemma OtherDaysOfOneDay<T(!new)>(rows: seq<Dated<T>>, day: int)
    requires forall x :: x in rows ==> x.day == day
    ensures OtherDays(rows, day) == []
  {
    if OtherDays(rows, day) != [] {
      assert OtherDays(rows, day)[0] in OtherDays(rows, day);
    }
  }

  /**
   * After the channel load the day's rows are stored rows of the incoming
   * channels with no two clashing, every channel is stored or clashes with one
   * stored before it, other days keep their rows, and loading twice is loading once.
   */
  lemma ReplaceChannelDayCorrect(rows: seq<Dated<ChannelRow>>, day: int, channels: seq<ChannelPerf>)
    ensures var after := ReplaceChannelDay(rows, day, channels);
              (forall x :: x in after && x.day == day ==> x.row == Stored(x.row.perf) && x.row.perf in channels)
              && DayUnique(after, day)
              && (forall p :: p in channels ==> StoredOrClashes(after, day, p))
              && OtherDays(after, day) == OtherDays(rows, day)
              && ReplaceChannelDay(after, day, channels) == after
  {
    ChannelDayRows(rows, day, channels);
    ChannelOtherDays(rows, day, channels);
  }

  lemma ChannelDayRows(rows: seq<Dated<ChannelRow>>, day: int, channels: seq<ChannelPerf>)
    ensures var after := ReplaceChannelDay(rows, day, channels);
              (forall x :: x in after && x.day == day ==> x.row == Stored(x.row.perf) && x.row.perf in channels)
              && DayUnique(after, day)
              && (forall p :: p in channels ==> StoredOrClashes(after, day, p))
  {
    var kept := OtherDays(rows, day);
    InsertChannelsFrom(kept, day, channels);
    InsertChannelsUnique(kept, day, channels);
    InsertChannelsCover(kept, day, channels);
  }

  lemma ChannelOtherDays(rows: seq<Dated<ChannelRow>>, day: int, channels: seq<ChannelPerf>)
    ensures OtherDays(ReplaceChannelDay(rows, day, channels), day) == OtherDays(rows, day)
    ensures ReplaceChannelDay(ReplaceChannelDay(rows, day, channels), day, channels) == ReplaceChannelDay(rows, day, channels)
  {
    var kept := OtherDays(rows, day);
    var after := ReplaceChannelDay(rows, day, channels);
    InsertChannelsAppends(kept, day, channels);
    var added := after[|kept|..];
    assert after == kept + added;
    assert forall x :: x in added ==> x.day == day;
    OtherDaysOfOneDay(added, day);
    OtherDaysAppend(kept, added, day);
    OtherDaysIdempotent(rows, day);
    assert OtherDays(after, day) == kept;
  }

  /**
   * A channel whose source is `NULL` and one whose source is "" have different
   * keys in the transform but clash once stored: only the first is kept.
   */
  lemma NullAndEmptyUtmClash(p: ChannelPerf, q: ChannelPerf, day: int)
    requires p.canal.Some? && q.canal == p.canal && q.utmMedium == p.utmMedium
    requires p.utmSource.None? && q.utmSource == Some("")
    ensures ReplaceChannelDay([], day, [p, q]) == [Dated(day, Stored(p))]
  {
    assert [p, q][..1] == [p];
    assert [p][..0] == [];
    assert InsertChannels([], day, [p]) == [Dated(day, Stored(p))];
    assert SameChannelKey(Dated(day, Stored(p)), Dated(day, Stored(q)));
  }

  /** A seller row as stored, with its completion rate. */
  datatype SellerRow = SellerRow(perf: SellerPerf, completionRate: real)

  /** The two performance tables. */
  class PerformanceDb {
    var sellerRows: seq<Dated<SellerRow>>
    var channelRows: seq<Dated<ChannelRow>>

    constructor ()
      ensures sellerRows == [] && channelRows == []
    {
      sellerRows := [];
      channelRows := [];
    }

    /** `load_performance_data`: today's rows of both tables are deleted, then the new rows inserted. */
    method LoadPerformanceData(today: int, sellers: seq<SellerPerf>, channels: seq<ChannelPerf>)
      modifies this
      ensures sellerRows == ReplaceDay(old(sellerRows), today, SellerRows(sellers))
      ensures channelRows == ReplaceChannelDay(old(channelRows), today, channels)
    {
      sellerRows := OtherDays(sellerRows, today);
      channelRows := OtherDays(channelRows, today);
      InsertSellerRows(today, sellers);
      InsertChannelRows(today, channels);
    }

    /** One `INSERT` per seller, each with its completion rate. */
    method InsertSellerRows(today: int, sellers: seq<SellerPerf>)
      modifies this
      ensures sellerRows == old(sellerRows) + Stamp(SellerRows(sellers), today)
      ensures channelRows == old(channelRows)
    {
      var i := 0;
      while i < |sellers|
        invariant 0 <= i <= |sellers|
        invariant sellerRows == old(sellerRows) + Stamp(SellerRows(sellers[..i]), today)
        invariant channelRows == old(channelRows)
      {
        StampSellerRowsSnoc(sellers[..i + 1], today);
        assert sellers[..i + 1][..i] == sellers[..i];
        sellerRows := sellerRows + [Dated(today, SellerRow(sellers[i], CompletionRate(sellers[i])))];
        i := i + 1;
      }
      assert sellers[..i] == sellers;
    }

    /** One `INSERT` per channel, with `or ''` on the UTM columns; one that clashes on the unique key is skipped. */
    method InsertChannelRows(today: int, channels: seq<ChannelPerf>)
      modifies this
      ensures channelRows == InsertChannels(old(channelRows), today, channels)
      ensures sellerRows == old(sellerRows)
    {
      var j := 0;
      while j < |channels|
        invariant 0 <= j <= |channels|
        invariant channelRows == InsertChannels(old(channelRows), today, channels[..j])
        invariant sellerRows == old(sellerRows)
      {
        assert channels[..j + 1][..j] == channels[..j];
        var c := channels[j];
        var x := Dated(today, ChannelRow(c.canal, if c.utmSource.Some? then c.utmSource.value else "",
                                         if c.utmMedium.Some? then c.utmMedium.value else "", c));
        if !(exists y :: y in channelRows && SameChannelKey(y, x)) {
          channelRows := channelRows + [x];
        }
        j := j + 1;
      }
      assert channels[..j] == channels;
    }
  }

  lemma StampSellerRowsSnoc(ps: seq<SellerPerf>, day: int)
    requires ps != []
    ensures Stamp(SellerRows(ps), day)
            == Stamp(SellerRows(ps[..|ps| - 1]), day) + [Dated(day, SellerRow(ps[|ps| - 1], CompletionRate(ps[|ps| - 1])))]
  {
    var rows := SellerRows(ps);
    assert rows[..|rows| - 1] == SellerRows(ps[..|ps| - 1]);
  }

  function SellerRows(ps: seq<SellerPerf>): (r: seq<SellerRow>)
    ensures |r| == |ps|
    ensures forall i :: 0 <= i < |ps| ==> r[i] == SellerRow(ps[i], CompletionRate(ps[i]))
  {
    if ps == [] then [] else SellerRows(ps[..|ps| - 1]) + [SellerRow(ps[|ps| - 1], CompletionRate(ps[|ps| - 1]))]
  }
}
