/**
 * The figures of src/pages/Admin/AdminDashboard.tsx, computed from the list
 * `getRegistrations()` returns: the five most recent registrations, the
 * status counts, the capacity card and the spots left out of 500.
 */
module AdminDashboard {
  import opened Seqs
  import opened Text
  import opened Types
  import Auth

  const Capacity := 500
  const RecentCount := 5

  /** `registrations.slice(-5).reverse()`. */
  function Recent(regs: seq<Registration>): seq<Registration> {
    RecentFirst(regs, RecentCount)
  }

  /** The table lists the last min(5, n) registrations, the newest first. */
  lemma RecentSpec(regs: seq<Registration>)
    ensures |Recent(regs)| == if |regs| < 5 then |regs| else 5
    ensures forall i :: 0 <= i < |Recent(regs)| ==> Recent(regs)[i] == regs[|regs| - 1 - i]
  {
    RecentFirstSpec(regs, RecentCount);
  }

  /** 'No registrations yet' is shown exactly when the recent list is empty. */
  predicate ShowsEmptyState(regs: seq<Registration>) {
    |Recent(regs)| == 0
  }

  lemma EmptyStateSpec(regs: seq<Registration>)
    ensures ShowsEmptyState(regs) <==> regs == []
  {
    RecentSpec(regs);
  }

  function StatusCount(regs: seq<Registration>, status: string): nat {
    Count(regs, (r: Registration) => r.status == status)
  }

  /** Each of the three status figures is at most the number of registrations, and together they are too. */
  lemma StatusCountsBounded(regs: seq<Registration>)
    ensures StatusCount(regs, "confirmed") <= |regs|
    ensures StatusCount(regs, "pending") <= |regs|
    ensures StatusCount(regs, "cancelled") <= |regs|
    ensures StatusCount(regs, "confirmed") + StatusCount(regs, "pending") <= |regs|
    ensures StatusCount(regs, "confirmed") + StatusCount(regs, "pending") + StatusCount(regs, "cancelled") <= |regs|
  {
    CountAtMostLength(regs, (r: Registration) => r.status == "confirmed");
    CountAtMostLength(regs, (r: Registration) => r.status == "pending");
    CountAtMostLength(regs, (r: Registration) => r.status == "cancelled");
    CountDisjoint(regs, (r: Registration) => r.status == "confirmed", (r: Registration) => r.status == "pending");
    CountDisjoint3(regs, (r: Registration) => r.status == "confirmed", (r: Registration) => r.status == "pending",
      (r: Registration) => r.status == "cancelled");
  }

  /** When every registration is pending, the pending figure is the total and the others are 0. */
  lemma AllPendingCounts(regs: seq<Registration>)
    requires forall k :: 0 <= k < |regs| ==> regs[k].status == Auth.Pending
    ensures StatusCount(regs, "pending") == |regs|
    ensures StatusCount(regs, "confirmed") == 0 && StatusCount(regs, "cancelled") == 0
  {
    FilterAllPass(regs, (r: Registration) => r.status == "pending");
    FilterNonePass(regs, (r: Registration) => r.status == "confirmed");
    FilterNonePass(regs, (r: Registration) => r.status == "cancelled");
  }

  /** The store only ever adds pending registrations, so on the dashboard everything is pending. */
  lemma StoreIsAllPending(store: Auth.AuthStore)
    requires store.Valid()
    ensures StatusCount(store.GetRegistrations(), "pending") == |store.GetRegistrations()|
    ensures StatusCount(store.GetRegistrations(), "confirmed") == 0
  {
    AllPendingCounts(store.registrations);
  }

  /** The capacity card: the count in decimal, then "/500". */
  function CapacityLabel(n: nat): (text: string)
    ensures |text| == |NatToString(n)| + 4
    ensures text[..|NatToString(n)|] == NatToString(n) && ParseNat(text[..|NatToString(n)|]) == n
    ensures text[|NatToString(n)|..] == "/500"
  {
    ParseNatToString(n);
    NatToString(n) + "/500"
  }

  /** `500 - registrations.length`: it goes negative once more than 500 have registered. */
  function SpotsRemaining(n: nat): (spots: int)
    ensures spots + n == Capacity
    ensures spots < 0 <==> n > Capacity
  {
    Capacity - n
  }

  /** The status badge colour. */
  function BadgeColor(status: string): (color: string)
    ensures status == "confirmed" ==> color == "bg-green-100 text-green-700"
    ensures status == "pending" ==> color == "bg-accent-100 text-primary-900"
    ensures status != "confirmed" && status != "pending" ==> color == "bg-red-100 text-red-700"
  {
    if status == "confirmed" then "bg-green-100 text-green-700"
    else if status == "pending" then "bg-accent-100 text-primary-900"
    else "bg-red-100 text-red-700"
  }
}
