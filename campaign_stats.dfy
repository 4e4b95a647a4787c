/**
 * `GET /api/campaigns/stats`: dashboard figures over the caller's campaigns. The
 * `$group` stage is a fold over the matching campaigns; the two divisions are over
 * reals. `calculateInsights` unwinds the channel lists, groups them per channel, sorts
 * the groups by average ROI and keeps the first three, and counts recent and soon-ending
 * campaigns. A week is seven times 24 hours.
 */
module CampaignStats {
  import opened Wrappers
  import opened Text
  import opened Seqs
  import opened Http
  import opened CampaignModel
  import opened UserModel
  import opened Store
  import opened Auth

  const NotAuthenticated := "Nicht authentifiziert"
  const UnknownUser := "Benutzer nicht gefunden"

  const WeekMs: int := 7 * 24 * 60 * 60 * 1000

  /** The `$match` stage: the campaigns `owner` created. */
  function Owned(cs: seq<Campaign>, owner: nat): seq<Campaign> {
    Filter(cs, Mine(owner))
  }

  /** The filter `{ createdBy: owner }`. */
  function Mine(owner: nat): Campaign -> bool {
    (c: Campaign) => c.createdBy == owner
  }

  // ----- The $group stage -----

  /** The accumulators of the `$group` stage. */
  datatype Group = Group(count: nat, active: nat, planned: nat, ended: nat,
                         budget: real, spent: real, revenue: real, actualRevenue: real)

  const NoGroup := Group(0, 0, 0, 0, 0.0, 0.0, 0.0, 0.0)

  /** `$cond: [test, 1, 0]`. */
  function Indicator(b: bool): nat {
    if b then 1 else 0
  }

  /** One document added to every accumulator. */
  function Accumulate(g: Group, c: Campaign): Group {
    Group(g.count + 1,
          g.active + Indicator(c.status == "active"),
          g.planned + Indicator(c.status == "planned"),
          g.ended + Indicator(c.status == "ended"),
          g.budget + c.budget,
          g.spent + c.performance.spentBudget,
          g.revenue + c.estimatedRevenue,
          g.actualRevenue + c.performance.actualRevenue)
  }

  /** The group over `cs`, documents added in order. */
  function GroupAll(cs: seq<Campaign>): Group
    decreases |cs|
  {
    if cs == [] then NoGroup else Accumulate(GroupAll(cs[..|cs| - 1]), cs[|cs| - 1])
  }

  /** The sum of `f` over a sequence. */
  function Sum<T>(xs: seq<T>, f: T -> real): real
    decreases |xs|
  {
    if xs == [] then 0.0 else f(xs[0]) + Sum(xs[1..], f)
  }

  /** The figures in the reply's `data`. */
  datatype Totals = Totals(totalCampaigns: nat, activeCampaigns: nat, plannedCampaigns: nat, endedCampaigns: nat,
                           totalBudget: real, spentBudget: real, estimatedRevenue: real, actualRevenue: real,
                           averageRoi: real)

  const ZeroTotals := Totals(0, 0, 0, 0, 0.0, 0.0, 0.0, 0.0, 0.0)

  /** The figures: zeros when the pipeline yields no group, else the group with the ratio of the two sums. */
  function TotalsOf(cs: seq<Campaign>, owner: nat): Totals {
    var owned := Owned(cs, owner);
    if owned == [] then ZeroTotals
    else
      var g := GroupAll(owned);
      Totals(g.count, g.active, g.planned, g.ended, g.budget, g.spent, g.revenue, g.actualRevenue,
             if g.budget > 0.0 then g.revenue / g.budget else 0.0)
  }

  predicate HasStatus(c: Campaign, s: string) {
    c.status == s
  }

  function Budget(c: Campaign): real { c.budget }
  function Spent(c: Campaign): real { c.performance.spentBudget }
  function Revenue(c: Campaign): real { c.estimatedRevenue }
  function ActualRevenue(c: Campaign): real { c.performance.actualRevenue }

  /** The sum over a sequence with one more element at its end. */
  lemma {:induction false} SumSnoc<T>(xs: seq<T>, x: T, f: T -> real)
    ensures Sum(xs + [x], f) == Sum(xs, f) + f(x)
    decreases |xs|
  {
    if xs == [] {
      assert [x][1..] == [];
    } else {
      assert (xs + [x])[1..] == xs[1..] + [x];
      SumSnoc(xs[1..], x, f);
    }
  }

  /** The count over a sequence with one more element at its end. */
  lemma CountSnoc<T(!new)>(xs: seq<T>, x: T, f: T -> bool)
    ensures Count(xs + [x], f) == Count(xs, f) + Indicator(f(x))
  {
    FilterConcat(xs, [x], f);
    assert [x][1..] == [];
  }

  /** Each accumulator of the fold is the count or sum it stands for. */
  lemma {:induction false} GroupIsSums(cs: seq<Campaign>)
    ensures var g := GroupAll(cs);
      && g.count == |cs|
      && g.active == Count(cs, (c: Campaign) => HasStatus(c, "active"))
      && g.planned == Count(cs, (c: Campaign) => HasStatus(c, "planned"))
      && g.ended == Count(cs, (c: Campaign) => HasStatus(c, "ended"))
      && g.budget == Sum(cs, Budget) && g.spent == Sum(cs, Spent)
      && g.revenue == Sum(cs, Revenue) && g.actualRevenue == Sum(cs, ActualRevenue)
    decreases |cs|
  {
    if cs != [] {
      var init := cs[..|cs| - 1];
      var last := cs[|cs| - 1];
      assert cs == init + [last];
      GroupIsSums(init);
      CountSnoc(init, last, (c: Campaign) => HasStatus(c, "active"));
      CountSnoc(init, last, (c: Campaign) => HasStatus(c, "planned"));
      CountSnoc(init, last, (c: Campaign) => HasStatus(c, "ended"));
      SumSnoc(init, last, Budget);
      SumSnoc(init, last, Spent);
      SumSnoc(init, last, Revenue);
      SumSnoc(init, last, ActualRevenue);
    }
  }

  /**
   * The figures count and sum exactly the caller's campaigns; `averageRoi` is the sum of
   * revenues over the sum of budgets when that is positive, else 0 — a ratio of sums.
   * With no campaign every figure is 0.
   */
  lemma TotalsAreSums(cs: seq<Campaign>, owner: nat)
    ensures var t := TotalsOf(cs, owner);
      var owned := Owned(cs, owner);
      && t.totalCampaigns == |owned|
      && t.activeCampaigns == Count(owned, (c: Campaign) => HasStatus(c, "active"))
      && t.plannedCampaigns == Count(owned, (c: Campaign) => HasStatus(c, "planned"))
      && t.endedCampaigns == Count(owned, (c: Campaign) => HasStatus(c, "ended"))
      && t.totalBudget == Sum(owned, Budget) && t.spentBudget == Sum(owned, Spent)
      && t.estimatedRevenue == Sum(owned, Revenue) && t.actualRevenue == Sum(owned, ActualRevenue)
      && t.averageRoi == (if Sum(owned, Budget) > 0.0 then Sum(owned, Revenue) / Sum(owned, Budget) else 0.0)
    ensures Owned(cs, owner) == [] ==> TotalsOf(cs, owner) == ZeroTotals
  {
    GroupIsSums(Owned(cs, owner));
  }

  /** Three statuses that exclude each other are counted at most once per campaign. */
  lemma {:induction false} DisjointCounts(cs: seq<Campaign>)
    ensures Count(cs, (c: Campaign) => HasStatus(c, "active")) + Count(cs, (c: Campaign) => HasStatus(c, "planned"))
          + Count(cs, (c: Campaign) => HasStatus(c, "ended")) <= |cs|
    decreases |cs|
  {
    if cs != [] {
      var init := cs[..|cs| - 1];
      var last := cs[|cs| - 1];
      assert cs == init + [last];
      DisjointCounts(init);
      CountSnoc(init, last, (c: Campaign) => HasStatus(c, "active"));
      CountSnoc(init, last, (c: Campaign) => HasStatus(c, "planned"));
      CountSnoc(init, last, (c: Campaign) => HasStatus(c, "ended"));
    }
  }

  /** Draft and paused campaigns are counted in the total only, so the three status counts never exceed it. */
  lemma StatusCountsBounded(cs: seq<Campaign>, owner: nat)
    ensures var t := TotalsOf(cs, owner);
      t.activeCampaigns + t.plannedCampaigns + t.endedCampaigns <= t.totalCampaigns
  {
    TotalsAreSums(cs, owner);
    DisjointCounts(Owned(cs, owner));
  }

  /** Another user's campaign changes none of the figures. */
  lemma OthersIgnored(cs: seq<Campaign>, owner: nat, c: Campaign)
    requires c.createdBy != owner
    ensures TotalsOf(cs + [c], owner) == TotalsOf(cs, owner)
  {
    FilterConcat(cs, [c], Mine(owner));
    assert [c][1..] == [];
    assert Owned(cs + [c], owner) == Owned(cs, owner);
  }

  /** Revenue 100 on budget 100 and revenue 100 on budget 300 average to 200 / 400, not to the mean of 1 and 1/3. */
  lemma RatioOfSumsExample(a: Campaign, b: Campaign, owner: nat)
    requires a.createdBy == owner && a.estimatedRevenue == 100.0 && a.budget == 100.0
    requires b.createdBy == owner && b.estimatedRevenue == 100.0 && b.budget == 300.0
    ensures TotalsOf([a, b], owner).averageRoi == 0.5
    ensures (Roi(a) + Roi(b)) / 2.0 != 0.5
  {
    FilterAll([a, b], Mine(owner));
    GroupIsSums([a, b]);
    assert [a, b][1..] == [b];
    assert [b][1..] == [];
    assert Sum([b], Budget) == 300.0 && Sum([b], Revenue) == 100.0;
    assert Sum([a, b], Budget) == 400.0 && Sum([a, b], Revenue) == 200.0;
    assert Roi(a) == 1.0;
    assert Roi(b) * 3.0 == 1.0;
  }

  // ----- calculateInsights -----

  /** One group of the channel pipeline. */
  datatype ChannelStat = ChannelStat(channel: string, count: nat, totalBudget: real, totalRevenue: real, avgRoi: real)

  /** The campaign paired with each of its channels. */
  function Pairs(chs: seq<string>, c: Campaign): (r: seq<(string, Campaign)>)
    ensures |r| == |chs| && forall i :: 0 <= i < |r| ==> r[i] == (chs[i], c)
  {
    seq(|chs|, i requires 0 <= i < |chs| => (chs[i], c))
  }

  /** `$unwind: '$channels'`: one entry per listed channel of each campaign, in order. */
  function Unwind(cs: seq<Campaign>): seq<(string, Campaign)>
    decreases |cs|
  {
    if cs == [] then [] else Pairs(cs[0].channels, cs[0]) + Unwind(cs[1..])
  }

  /** Exactly the pairs of a campaign and one of its channels are unwound. */
  lemma {:induction false} UnwindMembers(cs: seq<Campaign>, p: (string, Campaign))
    ensures p in Unwind(cs) <==> p.1 in cs && p.0 in p.1.channels
    decreases |cs|
  {
    if cs != [] {
      UnwindMembers(cs[1..], p);
      var head := Pairs(cs[0].channels, cs[0]);
      assert p in head <==> p.1 == cs[0] && p.0 in cs[0].channels by {
        if p.1 == cs[0] && p.0 in cs[0].channels {
          var i :| 0 <= i < |cs[0].channels| && cs[0].channels[i] == p.0;
          assert head[i] == p;
        }
      }
      assert cs == [cs[0]] + cs[1..];
    }
  }

  /** The group keys: each channel that occurs, once each. */
  function Keys(ps: seq<(string, Campaign)>): (r: seq<string>)
    ensures forall k :: k in r <==> exists p :: p in ps && p.0 == k
    ensures forall i, j :: 0 <= i < j < |r| ==> r[i] != r[j]
    decreases |ps|
  {
    if ps == [] then []
    else
      var rest := Keys(ps[1..]);
      assert forall p :: p in ps <==> p == ps[0] || p in ps[1..];
      if ps[0].0 in rest then rest else [ps[0].0] + rest
  }

  function Pick(k: string): ((string, Campaign)) -> bool {
    (p: (string, Campaign)) => p.0 == k
  }

  function PairBudget(p: (string, Campaign)): real { p.1.budget }
  function PairRevenue(p: (string, Campaign)): real { p.1.estimatedRevenue }

  /** `$cond: [{ $gt: ['$budget', 0] }, revenue / budget, 0]`, the `roi` rule. */
  function PairRoi(p: (string, Campaign)): real { Roi(p.1) }

  /** The group of channel `k`: its entries counted and summed, and the mean of their ROIs. */
  function GroupOf(ps: seq<(string, Campaign)>, k: string): ChannelStat {
    var m := Filter(ps, Pick(k));
    ChannelStat(k, |m|, Sum(m, PairBudget), Sum(m, PairRevenue),
                if |m| > 0 then Sum(m, PairRoi) / (|m| as real) else 0.0)
  }

  /** `$group: { _id: '$channels', … }`, one group per key. */
  function Groups(ps: seq<(string, Campaign)>): seq<ChannelStat> {
    var keys := Keys(ps);
    seq(|keys|, i requires 0 <= i < |keys| => GroupOf(ps, keys[i]))
  }

  /** `avgRoi` never increases along the sequence. */
  predicate Descending(xs: seq<ChannelStat>) {
    forall i, j :: 0 <= i < j < |xs| ==> xs[i].avgRoi >= xs[j].avgRoi
  }

  /** Places `x` after every entry with an average at least as high. */
  function Insert(x: ChannelStat, xs: seq<ChannelStat>): (r: seq<ChannelStat>)
    ensures multiset(r) == multiset(xs) + multiset{x}
    decreases |xs|
  {
    if xs == [] then [x]
    else if xs[0].avgRoi < x.avgRoi then [x] + xs
    else
      assert xs == [xs[0]] + xs[1..];
      [xs[0]] + Insert(x, xs[1..])
  }

  /** A head at least as high as every entry of a descending tail gives a descending sequence. */
  lemma ConsDescending(h: ChannelStat, rest: seq<ChannelStat>)
    requires Descending(rest)
    requires forall k :: 0 <= k < |rest| ==> h.avgRoi >= rest[k].avgRoi
    ensures Descending([h] + rest)
  {
    var r := [h] + rest;
    forall i, j | 0 <= i < j < |r| ensures r[i].avgRoi >= r[j].avgRoi {
      assert r[j] == rest[j - 1];
      if i > 0 {
        assert r[i] == rest[i - 1];
      }
    }
  }

  /** Inserting an entry below a bound into entries below it leaves every entry below it. */
  lemma InsertBounded(bound: real, x: ChannelStat, xs: seq<ChannelStat>)
    requires bound >= x.avgRoi
    requires forall k :: 0 <= k < |xs| ==> bound >= xs[k].avgRoi
    ensures forall k :: 0 <= k < |Insert(x, xs)| ==> bound >= Insert(x, xs)[k].avgRoi
  {
    var r := Insert(x, xs);
    forall k | 0 <= k < |r| ensures bound >= r[k].avgRoi {
      assert r[k] in multiset(r);
      if r[k] != x {
        assert r[k] in multiset(xs);
        var j :| 0 <= j < |xs| && xs[j] == r[k];
      }
    }
  }

  /** Inserting into a descending sequence keeps it descending. */
  lemma {:induction false} InsertDescending(x: ChannelStat, xs: seq<ChannelStat>)
    requires Descending(xs)
    ensures Descending(Insert(x, xs))
    decreases |xs|
  {
    if xs == [] {
    } else if xs[0].avgRoi < x.avgRoi {
      assert forall k :: 0 < k < |xs| ==> xs[0].avgRoi >= xs[k].avgRoi;
      ConsDescending(x, xs);
    } else {
      var tail := xs[1..];
      assert Descending(tail) by {
        forall i, j | 0 <= i < j < |tail| ensures tail[i].avgRoi >= tail[j].avgRoi {
          assert tail[i] == xs[i + 1] && tail[j] == xs[j + 1];
        }
      }
      assert forall k :: 0 <= k < |tail| ==> tail[k] == xs[k + 1];
      InsertDescending(x, tail);
      InsertBounded(xs[0].avgRoi, x, tail);
      ConsDescending(xs[0], Insert(x, tail));
    }
  }

  /** `$sort: { avgRoi: -1 }`: the same groups, reordered. */
  function SortByRoi(xs: seq<ChannelStat>): (r: seq<ChannelStat>)
    ensures multiset(r) == multiset(xs)
    decreases |xs|
  {
    if xs == [] then []
    else
      assert xs == [xs[0]] + xs[1..];
      Insert(xs[0], SortByRoi(xs[1..]))
  }

  /** The sort leaves the groups in descending order of average ROI. */
  lemma {:induction false} SortDescending(xs: seq<ChannelStat>)
    ensures Descending(SortByRoi(xs))
    decreases |xs|
  {
    if xs != [] {
      SortDescending(xs[1..]);
      InsertDescending(xs[0], SortByRoi(xs[1..]));
    }
  }

  function Min(a: int, b: int): int { if a <= b then a else b }

  datatype Insights = Insights(topChannels: seq<ChannelStat>, recentCampaigns: nat, endingSoon: nat, weeklyGrowth: nat)

  const NoInsights := Insights([], 0, 0, 0)

  predicate Recent(c: Campaign, owner: nat, now: int) {
    c.createdBy == owner && c.createdAt >= now - WeekMs
  }

  predicate EndingSoon(c: Campaign, owner: nat, now: int) {
    c.createdBy == owner && (c.status == "active" || c.status == "planned") && now <= c.endDate <= now + WeekMs
  }

  function RecentTest(owner: nat, now: int): Campaign -> bool {
    (c: Campaign) => Recent(c, owner, now)
  }

  function SoonTest(owner: nat, now: int): Campaign -> bool {
    (c: Campaign) => EndingSoon(c, owner, now)
  }

  /** The channel groups of the caller's campaigns. */
  function ChannelGroups(cs: seq<Campaign>, owner: nat): seq<ChannelStat> {
    Groups(Unwind(Owned(cs, owner)))
  }

  /** `calculateInsights`; when `ok` is false one of its queries failed and everything is zero or empty. */
  function InsightsOf(cs: seq<Campaign>, owner: nat, now: int, ok: bool): Insights {
    if !ok then NoInsights
    else
      var sorted := SortByRoi(ChannelGroups(cs, owner));
      var recent := Count(cs, RecentTest(owner, now));
      Insights(sorted[..Min(3, |sorted|)], recent, Count(cs, SoonTest(owner, now)), recent)
  }

  /** Every channel one of the caller's campaigns lists has exactly one group, and there is no other group. */
  lemma ChannelGroupsExact(cs: seq<Campaign>, owner: nat)
    ensures var gs := ChannelGroups(cs, owner);
      forall i, j :: 0 <= i < j < |gs| ==> gs[i].channel != gs[j].channel
    ensures var gs := ChannelGroups(cs, owner);
      forall c, ch :: c in cs && c.createdBy == owner && ch in c.channels ==> exists i :: 0 <= i < |gs| && gs[i].channel == ch
    ensures var gs := ChannelGroups(cs, owner);
      forall i :: 0 <= i < |gs| ==> ListedBy(cs, owner, gs[i].channel)
  {
    var owned := Owned(cs, owner);
    var ps := Unwind(owned);
    var keys := Keys(ps);
    var gs := ChannelGroups(cs, owner);
    forall c, ch | c in cs && c.createdBy == owner && ch in c.channels
      ensures exists i :: 0 <= i < |gs| && gs[i].channel == ch
    {
      UnwindMembers(owned, (ch, c));
      assert (ch, c) in ps;
      assert ch in keys;
      var i :| 0 <= i < |keys| && keys[i] == ch;
      assert gs[i].channel == ch;
    }
    forall i | 0 <= i < |gs|
      ensures ListedBy(cs, owner, gs[i].channel)
    {
      GroupChannelListed(cs, owner, i);
    }
  }

  /** One of the owner's campaigns lists the channel. */
  predicate ListedBy(cs: seq<Campaign>, owner: nat, ch: string) {
    exists c :: c in cs && c.createdBy == owner && ch in c.channels
  }

  /** The channel of a group is listed by one of the caller's campaigns. */
  lemma GroupChannelListed(cs: seq<Campaign>, owner: nat, i: nat)
    requires i < |ChannelGroups(cs, owner)|
    ensures ListedBy(cs, owner, ChannelGroups(cs, owner)[i].channel)
  {
    var owned := Owned(cs, owner);
    var ps := Unwind(owned);
    var keys := Keys(ps);
    assert ChannelGroups(cs, owner)[i].channel == keys[i];
    assert keys[i] in keys;
    var p :| p in ps && p.0 == keys[i];
    UnwindMembers(owned, p);
    assert p.1 in cs && Mine(owner)(p.1);
    assert p.1 in cs && p.1.createdBy == owner && ChannelGroups(cs, owner)[i].channel in p.1.channels;
  }

  /**
   * A group counts the (campaign, listed channel) entries for its channel, at least one, and its
   * average ROI is the mean over those entries of revenue / budget, a budget ≤ 0 counting as 0.
   */
  lemma ChannelGroupFigures(cs: seq<Campaign>, owner: nat, i: nat)
    requires i < |ChannelGroups(cs, owner)|
    ensures var g := ChannelGroups(cs, owner)[i];
      var m := Filter(Unwind(Owned(cs, owner)), Pick(g.channel));
      && g.count == |m| >= 1
      && g.totalBudget == Sum(m, PairBudget) && g.totalRevenue == Sum(m, PairRevenue)
      && g.avgRoi == Sum(m, PairRoi) / (|m| as real)
      && forall p :: p in m ==> p.0 == g.channel && p.1.createdBy == owner && p.0 in p.1.channels
  {
    var ps := Unwind(Owned(cs, owner));
    var keys := Keys(ps);
    assert keys[i] in keys;
    var p :| p in ps && p.0 == keys[i];
    assert p in Filter(ps, Pick(keys[i]));
    forall q | q in Filter(ps, Pick(keys[i])) ensures q.0 == keys[i] && q.1.createdBy == owner && q.0 in q.1.channels {
      UnwindMembers(Owned(cs, owner), q);
    }
  }

  /**
   * `topChannels` holds the min(3, n) groups with the highest average ROI, highest first:
   * every group left out has an average at most that of each listed one.
   */
  lemma TopChannelsBest(cs: seq<Campaign>, owner: nat, now: int)
    ensures var top := InsightsOf(cs, owner, now, true).topChannels;
      var gs := ChannelGroups(cs, owner);
      && |top| == Min(3, |gs|)
      && Descending(top)
      && (forall t :: t in top ==> t in gs)
      && (forall g, t :: g in gs && g !in top && t in top ==> g.avgRoi <= t.avgRoi)
  {
    var gs := ChannelGroups(cs, owner);
    var sorted := SortByRoi(gs);
    var n := Min(3, |sorted|);
    SortDescending(gs);
    assert |sorted| == |gs| by {
      assert |multiset(sorted)| == |multiset(gs)|;
    }
    PrefixBest(sorted, n);
    forall g | g in gs ensures g in sorted {
      assert g in multiset(sorted);
    }
    forall t | t in sorted ensures t in gs {
      assert t in multiset(gs);
    }
  }

  /** A prefix of a descending sequence is descending, and holds entries at least as high as every entry after it. */
  lemma PrefixBest(s: seq<ChannelStat>, n: nat)
    requires Descending(s) && n <= |s|
    ensures Descending(s[..n])
    ensures forall t :: t in s[..n] ==> t in s
    ensures forall g, t :: g in s && g !in s[..n] && t in s[..n] ==> g.avgRoi <= t.avgRoi
  {
    forall g, t | g in s && g !in s[..n] && t in s[..n] ensures g.avgRoi <= t.avgRoi {
      var j :| 0 <= j < |s| && s[j] == g;
      var k :| 0 <= k < n && s[..n][k] == t;
      assert s[k] == t;
    }
  }

  /** The filter of `countDocuments` for recent campaigns, without the owner. */
  function CreatedSince(since: int): Campaign -> bool {
    (c: Campaign) => c.createdAt >= since
  }

  /** The filter of `countDocuments` for campaigns ending soon, without the owner. */
  function EndsSoon(now: int): Campaign -> bool {
    (c: Campaign) => (c.status == "active" || c.status == "planned") && now <= c.endDate <= now + WeekMs
  }

  /**
   * `recentCampaigns` counts the caller's campaigns created during the last week, `endingSoon`
   * the caller's active or planned ones ending between now and a week from now, and
   * `weeklyGrowth` repeats `recentCampaigns`; a failed query gives zeros and no channel.
   */
  lemma InsightCounts(cs: seq<Campaign>, owner: nat, now: int, ok: bool)
    ensures var ins := InsightsOf(cs, owner, now, ok);
      && ins.weeklyGrowth == ins.recentCampaigns
      && (ok ==> ins.recentCampaigns == Count(Owned(cs, owner), CreatedSince(now - WeekMs)))
      && (ok ==> ins.endingSoon == Count(Owned(cs, owner), EndsSoon(now)))
      && ins.endingSoon <= |Owned(cs, owner)|
      && (!ok ==> ins == NoInsights)
  {
    if ok {
      FilterFilter(cs, Mine(owner), CreatedSince(now - WeekMs), RecentTest(owner, now));
      FilterFilter(cs, Mine(owner), EndsSoon(now), SoonTest(owner, now));
    }
  }

  // ----- The handler -----

  datatype StatsReply = StatsRefused(status: Http.Status, error: string) | StatsData(totals: Totals, insights: Insights)

  predicate SignedOut(session: Option<Claims>) {
    session.None? || !Present(session.value.email)
  }

  /** `GET`: 401 without a signed-in address, 404 for an address no user holds, else the figures and insights of that user. */
  function Stats(users: seq<UserRecord>, campaigns: seq<Campaign>, session: Option<Claims>, now: int, insightsOk: bool): StatsReply {
    if SignedOut(session) then StatsRefused(Unauthorized, NotAuthenticated)
    else
      var i := FindUser(users, EmailKey(session.value.email.value));
      if i < 0 then StatsRefused(NotFound, UnknownUser)
      else StatsData(TotalsOf(campaigns, users[i].id), InsightsOf(campaigns, users[i].id, now, insightsOk))
  }

  /** `r` holds the figures and insights of the user stored under `key`. */
  predicate OwnFigures(users: seq<UserRecord>, campaigns: seq<Campaign>, key: string, now: int, insightsOk: bool, r: StatsReply) {
    exists i :: 0 <= i < |users| && users[i].email == key && r == StatsData(TotalsOf(campaigns, users[i].id), InsightsOf(campaigns, users[i].id, now, insightsOk))
  }

  /** The reply is refused exactly in the two cases, and otherwise describes the signed-in user's own campaigns. */
  lemma StatsReplies(users: seq<UserRecord>, campaigns: seq<Campaign>, session: Option<Claims>, now: int, insightsOk: bool)
    ensures var r := Stats(users, campaigns, session, now, insightsOk);
      && (SignedOut(session) ==> r == StatsRefused(Unauthorized, NotAuthenticated))
      && (!SignedOut(session) && !EmailTaken(users, EmailKey(session.value.email.value)) ==> r == StatsRefused(NotFound, UnknownUser))
      && (r.StatsData? ==> !SignedOut(session) && OwnFigures(users, campaigns, EmailKey(session.value.email.value), now, insightsOk, r))
  {
  }
}
