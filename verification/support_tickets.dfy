/**
 * The support queue (components/SupportTickets.tsx): the status filter over
 * the ticket list, the merchant-name lookup and the status colour.
 */
module SupportTickets {
  import opened Types

  /** The four filter buttons: 'ALL' or one status. */
  datatype StatusFilter = All | Only(status: TicketStatus)

  /** A ticket passes ALL, and passes a status filter when it has that status. */
  predicate Passes(f: StatusFilter, t: Ticket) {
    f.All? || t.status == f.status
  }

  /** `filtered`: the tickets that pass the filter, in list order. */
  function Filtered(ts: seq<Ticket>, f: StatusFilter): seq<Ticket> {
    if |ts| == 0 then []
    else (if Passes(f, ts[0]) then [ts[0]] else []) + Filtered(ts[1..], f)
  }

  /** The tickets with a given status, written independently as a recursive selection from the end. */
  function WithStatus(ts: seq<Ticket>, s: TicketStatus): seq<Ticket> {
    if |ts| == 0 then []
    else
      var last := ts[|ts| - 1];
      WithStatus(ts[..|ts| - 1], s) + (if last.status == s then [last] else [])
  }

  lemma {:induction false} FilteredAppend(xs: seq<Ticket>, ys: seq<Ticket>, f: StatusFilter)
    ensures Filtered(xs + ys, f) == Filtered(xs, f) + Filtered(ys, f)
  {
    if |xs| == 0 {
      assert xs + ys == ys;
    } else {
      assert (xs + ys)[0] == xs[0] && (xs + ys)[1..] == xs[1..] + ys;
      FilteredAppend(xs[1..], ys, f);
    }
  }

  /** 'ALL' shows every ticket in the original order. */
  lemma {:induction false} AllShowsEverything(ts: seq<Ticket>)
    ensures Filtered(ts, All) == ts
  {
    if |ts| > 0 {
      AllShowsEverything(ts[1..]);
      assert ts == [ts[0]] + ts[1..];
    }
  }

  /** A status filter keeps exactly the tickets with that status, in their original order. */
  lemma {:induction false} StatusFilterSelects(ts: seq<Ticket>, s: TicketStatus)
    ensures Filtered(ts, Only(s)) == WithStatus(ts, s)
  {
    if |ts| > 0 {
      var init := ts[..|ts| - 1];
      var last := ts[|ts| - 1];
      assert ts == init + [last];
      StatusFilterSelects(init, s);
      FilteredAppend(init, [last], Only(s));
      assert Filtered([last], Only(s)) == if last.status == s then [last] else [];
    }
  }

  /** A filtered ticket has the status; no ticket with the status is lost. */
  lemma {:induction false} StatusFilterMembers(ts: seq<Ticket>, s: TicketStatus)
    ensures forall t :: t in Filtered(ts, Only(s)) <==> t in ts && t.status == s
  {
    if |ts| > 0 {
      StatusFilterMembers(ts[1..], s);
      assert ts == [ts[0]] + ts[1..];
    }
  }

  /** The three status filters split the ticket list: their sizes add up and together they hold every ticket once. */
  lemma {:induction false} StatusFiltersPartition(ts: seq<Ticket>)
    ensures |Filtered(ts, Only(Open))| + |Filtered(ts, Only(InProgress))| + |Filtered(ts, Only(Closed))| == |ts|
    ensures multiset(Filtered(ts, Only(Open))) + multiset(Filtered(ts, Only(InProgress)))
      + multiset(Filtered(ts, Only(Closed))) == multiset(ts)
  {
    if |ts| > 0 {
      StatusFiltersPartition(ts[1..]);
      assert ts == [ts[0]] + ts[1..];
      HeadInOneFilter(ts);
    }
  }

  /** The first ticket goes to the filter of its own status and to no other. */
  lemma HeadInOneFilter(ts: seq<Ticket>)
    requires |ts| > 0
    ensures forall s :: (Filtered(ts, Only(s)) ==
      (if ts[0].status == s then [ts[0]] else []) + Filtered(ts[1..], Only(s)))
  {
  }

  /**
   * `getMerchantName`: the name of the merchant with the id, else 'Unknown'.
   * Only the first merchant with the id is looked at; an empty name also
   * shows as 'Unknown'.
   */
  function MerchantName(ms: seq<Merchant>, id: string): (r: string)
    ensures r != ""
    ensures (forall i :: 0 <= i < |ms| ==> ms[i].id != id) ==> r == "Unknown"
    ensures forall i :: 0 <= i < |ms| && ms[i].id == id && (forall j :: 0 <= j < i ==> ms[j].id != id) ==>
      r == (if ms[i].name == "" then "Unknown" else ms[i].name)
  {
    if |ms| == 0 then "Unknown"
    else if ms[0].id == id then (if ms[0].name == "" then "Unknown" else ms[0].name)
    else MerchantName(ms[1..], id)
  }

  /** The status label and progress bar use the alert colour. */
  predicate AlertColour(t: Ticket) {
    t.status == Open
  }

  /**
   * Under the OPEN filter every row shows the alert colour; under the
   * IN_PROGRESS and CLOSED filters no row does; under ALL, a row shows it
   * exactly when it also appears under OPEN.
   */
  lemma AlertColourFollowsOpenFilter(ts: seq<Ticket>)
    ensures forall t :: t in Filtered(ts, Only(Open)) ==> AlertColour(t)
    ensures forall t :: t in Filtered(ts, Only(InProgress)) ==> !AlertColour(t)
    ensures forall t :: t in Filtered(ts, Only(Closed)) ==> !AlertColour(t)
    ensures forall t :: t in Filtered(ts, All) ==> (AlertColour(t) <==> t in Filtered(ts, Only(Open)))
  {
    StatusFilterMembers(ts, Open);
    StatusFilterMembers(ts, InProgress);
    StatusFilterMembers(ts, Closed);
    AllShowsEverything(ts);
  }
}
