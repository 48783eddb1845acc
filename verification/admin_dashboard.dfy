/**
 * The administrator's overview (components/AdminDashboard.tsx): the fleet of
 * all terminals, its status counts and alert count, the merchant category
 * breakdown, the open-ticket count, and the per-terminal ticket badge,
 * battery warning and signal bars.
 */
module AdminDashboard {
  import opened Wrappers
  import opened Types
  import opened SupportTickets

  // ---------------------------------------------------------------------
  // The fleet
  // ---------------------------------------------------------------------

  /** The devices of every branch, branch by branch, in list order. */
  function BranchDevices(bs: seq<Branch>): seq<Device> {
    if |bs| == 0 then [] else bs[0].devices + BranchDevices(bs[1..])
  }

  /** `allDevices`: every branch's devices, merchant by merchant, branch by branch. */
  function AllDevices(ms: seq<Merchant>): seq<Device> {
    if |ms| == 0 then [] else BranchDevices(ms[0].branches) + AllDevices(ms[1..])
  }

  lemma {:induction false} BranchDevicesMembers(bs: seq<Branch>)
    ensures forall d :: d in BranchDevices(bs) <==> exists j :: 0 <= j < |bs| && d in bs[j].devices
  {
    if |bs| > 0 {
      BranchDevicesMembers(bs[1..]);
      forall d | d in BranchDevices(bs[1..]) ensures exists j :: 0 <= j < |bs| && d in bs[j].devices {
        var j :| 0 <= j < |bs[1..]| && d in bs[1..][j].devices;
        assert bs[j + 1] == bs[1..][j];
      }
      forall d | (exists j :: 0 <= j < |bs| && d in bs[j].devices) && d !in bs[0].devices
        ensures d in BranchDevices(bs[1..])
      {
        var j :| 0 <= j < |bs| && d in bs[j].devices;
        assert bs[1..][j - 1] == bs[j];
      }
    }
  }

  /** A device is in the fleet exactly when some branch of some merchant lists it. */
  lemma {:induction false} AllDevicesMembers(ms: seq<Merchant>)
    ensures forall d :: d in AllDevices(ms) <==>
      exists i, j :: 0 <= i < |ms| && 0 <= j < |ms[i].branches| && d in ms[i].branches[j].devices
  {
    if |ms| > 0 {
      AllDevicesMembers(ms[1..]);
      BranchDevicesMembers(ms[0].branches);
      forall d | d in AllDevices(ms[1..])
        ensures exists i, j :: 0 <= i < |ms| && 0 <= j < |ms[i].branches| && d in ms[i].branches[j].devices
      {
        var i, j :| 0 <= i < |ms[1..]| && 0 <= j < |ms[1..][i].branches| && d in ms[1..][i].branches[j].devices;
        assert ms[i + 1] == ms[1..][i];
      }
      forall d | (exists i, j :: 0 <= i < |ms| && 0 <= j < |ms[i].branches| && d in ms[i].branches[j].devices)
        ensures d in AllDevices(ms)
      {
        var i, j :| 0 <= i < |ms| && 0 <= j < |ms[i].branches| && d in ms[i].branches[j].devices;
        if i > 0 {
          assert ms[1..][i - 1] == ms[i];
        }
      }
    }
  }

  /** The fleet of two merchant lists is the two fleets in order. */
  lemma {:induction false} AllDevicesAppend(ms1: seq<Merchant>, ms2: seq<Merchant>)
    ensures AllDevices(ms1 + ms2) == AllDevices(ms1) + AllDevices(ms2)
  {
    if |ms1| == 0 {
      assert ms1 + ms2 == ms2;
    } else {
      assert (ms1 + ms2)[0] == ms1[0] && (ms1 + ms2)[1..] == ms1[1..] + ms2;
      AllDevicesAppend(ms1[1..], ms2);
    }
  }

  // ---------------------------------------------------------------------
  // Status counts
  // ---------------------------------------------------------------------

  /** How many devices report the status `st`. */
  function CountStatus(ds: seq<Device>, st: DeviceStatus): nat {
    if |ds| == 0 then 0 else (if ds[0].status == st then 1 else 0) + CountStatus(ds[1..], st)
  }

  /** `terminalStats`: Online, Maintenance, Offline, Powered Off. */
  function TerminalStats(ds: seq<Device>): seq<nat> {
    [CountStatus(ds, Online), CountStatus(ds, Maintenance), CountStatus(ds, Offline), CountStatus(ds, PoweredOff)]
  }

  /** The alert card: devices that are offline or powered off. */
  function AlertCount(ds: seq<Device>): nat {
    if |ds| == 0 then 0
    else (if ds[0].status == Offline || ds[0].status == PoweredOff then 1 else 0) + AlertCount(ds[1..])
  }

  /** The four status counts add up to the size of the fleet. */
  lemma {:induction false} StatsCoverFleet(ds: seq<Device>)
    ensures var s := TerminalStats(ds); s[0] + s[1] + s[2] + s[3] == |ds|
  {
    if |ds| > 0 {
      StatsCoverFleet(ds[1..]);
    }
  }

  /** The alert count is the offline count plus the powered-off count. */
  lemma {:induction false} AlertsAreOfflineAndPoweredOff(ds: seq<Device>)
    ensures AlertCount(ds) == CountStatus(ds, Offline) + CountStatus(ds, PoweredOff)
  {
    if |ds| > 0 {
      AlertsAreOfflineAndPoweredOff(ds[1..]);
    }
  }

  // ---------------------------------------------------------------------
  // Merchant categories
  // ---------------------------------------------------------------------

  datatype CategoryEntry = CategoryEntry(name: MerchantCategory, value: nat)

  function Categories(ms: seq<Merchant>): (r: seq<MerchantCategory>)
    ensures |r| == |ms| && forall i :: 0 <= i < |ms| ==> r[i] == ms[i].category
  {
    seq(|ms|, i requires 0 <= i < |ms| => ms[i].category)
  }

  /** Each category once, in order of first appearance. */
  function Distinct(xs: seq<MerchantCategory>): seq<MerchantCategory> {
    if |xs| == 0 then []
    else
      var d := Distinct(xs[..|xs| - 1]);
      if xs[|xs| - 1] in d then d else d + [xs[|xs| - 1]]
  }

  /** How many entries of `xs` are the category `c`. */
  function CountOf(xs: seq<MerchantCategory>, c: MerchantCategory): nat {
    if |xs| == 0 then 0 else CountOf(xs[..|xs| - 1], c) + (if xs[|xs| - 1] == c then 1 else 0)
  }

  function Entries(cats: seq<MerchantCategory>, xs: seq<MerchantCategory>): seq<CategoryEntry> {
    if |cats| == 0 then [] else [CategoryEntry(cats[0], CountOf(xs, cats[0]))] + Entries(cats[1..], xs)
  }

  /** `merchantCategories`: one chart entry per distinct category, with its merchant count. */
  function MerchantCategories(ms: seq<Merchant>): seq<CategoryEntry> {
    Entries(Distinct(Categories(ms)), Categories(ms))
  }

  function SumValues(es: seq<CategoryEntry>): nat {
    if |es| == 0 then 0 else es[0].value + SumValues(es[1..])
  }

  predicate NoDuplicates(xs: seq<MerchantCategory>) {
    forall i, j :: 0 <= i < j < |xs| ==> xs[i] != xs[j]
  }

  /** The set keeps each category once and keeps exactly the categories that occur. */
  lemma {:induction false} DistinctIsSet(xs: seq<MerchantCategory>)
    ensures NoDuplicates(Distinct(xs))
    ensures forall c :: c in Distinct(xs) <==> c in xs
  {
    if |xs| > 0 {
      var init := xs[..|xs| - 1];
      DistinctIsSet(init);
      assert xs == init + [xs[|xs| - 1]];
    }
  }

  lemma {:induction false} CountOfAbsent(xs: seq<MerchantCategory>, c: MerchantCategory)
    requires c !in xs
    ensures CountOf(xs, c) == 0
  {
    if |xs| > 0 {
      assert xs[..|xs| - 1] <= xs;
      CountOfAbsent(xs[..|xs| - 1], c);
    }
  }

  /** Summing the counts of a duplicate-free list over one more merchant adds one exactly when its category is listed. */
  lemma {:induction false} EntriesGrow(cats: seq<MerchantCategory>, xs: seq<MerchantCategory>, x: MerchantCategory)
    requires NoDuplicates(cats)
    ensures SumValues(Entries(cats, xs + [x])) == SumValues(Entries(cats, xs)) + (if x in cats then 1 else 0)
  {
    if |cats| > 0 {
      assert (xs + [x])[..|xs + [x]| - 1] == xs;
      assert x in cats[1..] ==> x != cats[0];
      assert x in cats ==> x == cats[0] || x in cats[1..];
      EntriesGrow(cats[1..], xs, x);
    }
  }

  lemma {:induction false} EntriesAppend(cats: seq<MerchantCategory>, c: MerchantCategory, xs: seq<MerchantCategory>)
    ensures SumValues(Entries(cats + [c], xs)) == SumValues(Entries(cats, xs)) + CountOf(xs, c)
  {
    if |cats| == 0 {
      assert cats + [c] == [c];
    } else {
      assert (cats + [c])[1..] == cats[1..] + [c];
      EntriesAppend(cats[1..], c, xs);
    }
  }

  /** One entry per distinct category, and the entry counts add up to the number of merchants. */
  lemma {:induction false} CategoryCountsCoverMerchants(xs: seq<MerchantCategory>)
    ensures SumValues(Entries(Distinct(xs), xs)) == |xs|
  {
    if |xs| > 0 {
      var init := xs[..|xs| - 1];
      var x := xs[|xs| - 1];
      assert xs == init + [x];
      CategoryCountsCoverMerchants(init);
      var d := Distinct(init);
      DistinctIsSet(init);
      EntriesGrow(d, init, x);
      if x !in d {
        EntriesAppend(d, x, xs);
        CountOfAbsent(init, x);
      }
    }
  }

  /** The category chart for a merchant list: distinct names, counts summing to the merchant count. */
  lemma CategoryChart(ms: seq<Merchant>)
    ensures NoDuplicates(Distinct(Categories(ms)))
    ensures forall i :: 0 <= i < |ms| ==> ms[i].category in Distinct(Categories(ms))
    ensures SumValues(MerchantCategories(ms)) == |ms|
  {
    DistinctIsSet(Categories(ms));
    CategoryCountsCoverMerchants(Categories(ms));
  }

  // ---------------------------------------------------------------------
  // Tickets and terminal indicators
  // ---------------------------------------------------------------------

  /** `openTickets`: tickets whose status is OPEN. */
  function OpenTickets(ts: seq<Ticket>): nat {
    if |ts| == 0 then 0 else (if ts[0].status == Open then 1 else 0) + OpenTickets(ts[1..])
  }

  /** The TICKET badge: some ticket that is not closed names the device. */
  predicate HasTicketBadge(ts: seq<Ticket>, d: Device) {
    exists i :: 0 <= i < |ts| && ts[i].deviceId == d.id && ts[i].status != Closed
  }

  /** The queue card's count is the length of the support queue's OPEN filter. */
  lemma {:induction false} OpenTicketsIsOpenFilter(ts: seq<Ticket>)
    ensures OpenTickets(ts) == |Filtered(ts, Only(Open))|
  {
    if |ts| > 0 {
      OpenTicketsIsOpenFilter(ts[1..]);
    }
  }

  /** The count is positive exactly when some ticket is open. */
  lemma {:induction false} OpenTicketsPositive(ts: seq<Ticket>)
    ensures OpenTickets(ts) > 0 <==> exists k :: 0 <= k < |ts| && ts[k].status == Open
  {
    if |ts| > 0 {
      OpenTicketsPositive(ts[1..]);
      if OpenTickets(ts[1..]) > 0 {
        var k :| 0 <= k < |ts[1..]| && ts[1..][k].status == Open;
        assert ts[k + 1] == ts[1..][k];
      }
      if ts[0].status != Open && exists k :: 0 <= k < |ts| && ts[k].status == Open {
        var k :| 0 <= k < |ts| && ts[k].status == Open;
        assert ts[1..][k - 1] == ts[k];
      }
    }
  }

  /** A ticket appended to the list adds one to the count exactly when it is open. */
  lemma {:induction false} OpenTicketsAppend(ts: seq<Ticket>, t: Ticket)
    ensures OpenTickets(ts + [t]) == OpenTickets(ts) + (if t.status == Open then 1 else 0)
  {
    if |ts| == 0 {
      assert ts + [t] == [t];
    } else {
      assert (ts + [t])[1..] == ts[1..] + [t];
      OpenTicketsAppend(ts[1..], t);
    }
  }

  /** Every open ticket, wherever it sits in the list, puts the TICKET badge on the device it names. */
  lemma OpenTicketBadgesItsDevice(ts: seq<Ticket>, k: int, d: Device)
    requires 0 <= k < |ts| && ts[k].status == Open && ts[k].deviceId == d.id
    ensures HasTicketBadge(ts, d)
  {
  }

  /**
   * The queue card counts OPEN only, while the badge also shows for a ticket
   * in progress: adding one in progress badges its device and leaves the
   * count as it was.
   */
  lemma InProgressTicketBadgedButNotQueued(ts: seq<Ticket>, t: Ticket, d: Device)
    requires t.deviceId == d.id && t.status == InProgress
    ensures HasTicketBadge(ts + [t], d)
    ensures OpenTickets(ts + [t]) == OpenTickets(ts)
  {
    OpenTicketsAppend(ts, t);
    assert (ts + [t])[|ts|] == t;
  }

  /** The battery warning: a level that is present, non-zero and below 20. */
  predicate LowBattery(d: Device) {
    d.batteryLevel.Some? && d.batteryLevel.value != 0 && d.batteryLevel.value < 20
  }

  /** Battery levels 1 to 19 are flagged; 0, 20 and above, and a missing level are not. */
  lemma LowBatteryRule(d: Device)
    requires d.batteryLevel.None? || d.batteryLevel.value >= 0
    ensures LowBattery(d) <==> d.batteryLevel.Some? && 0 < d.batteryLevel.value < 20
  {
  }

  /** The SIM's signal strength, 0 for a device without a SIM. */
  function SignalStrength(d: Device): int {
    if d.sim.Some? then d.sim.value.signalStrength else 0
  }

  /** Signal bar `i` of five is lit when `i` is below a twentieth of the strength, in real division. */
  predicate SignalBarLit(d: Device, i: int) {
    (i as real) < (SignalStrength(d) as real) / 20.0
  }

  /** A bar is lit exactly when 20 times its index is below the strength; without a SIM none is lit. */
  lemma SignalBarRule(d: Device, i: int)
    requires 0 <= i < 5
    ensures SignalBarLit(d, i) <==> 20 * i < SignalStrength(d)
    ensures d.sim.None? ==> !SignalBarLit(d, i)
  {
  }

  /** Lit bars form a prefix: if a bar is lit, so is every bar before it. */
  lemma SignalBarsFromTheLeft(d: Device, i: int, j: int)
    requires 0 <= j <= i < 5 && SignalBarLit(d, i)
    ensures SignalBarLit(d, j)
  {
  }
}
