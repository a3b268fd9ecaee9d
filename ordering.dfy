/** The filter and `order_by(start_date)` of the listing queries. The
    database leaves the order of rows with equal start dates open, so a
    listing is characterised only as sorted and as a permutation of the
    selected rows; insertion sort is one such ordering. */
module RequestOrder {
  import opened LeaveRecords

  datatype Order = Ascending | Descending

  /** `a` may be listed before `b` in the given order of start dates. */
  predicate Precedes(a: LeaveRequest, b: LeaveRequest, order: Order) {
    match order
    case Ascending => a.startDate <= b.startDate
    case Descending => a.startDate >= b.startDate
  }

  predicate SortedBy(s: seq<LeaveRequest>, order: Order) {
    forall i, j :: 0 <= i < j < |s| ==> Precedes(s[i], s[j], order)
  }

  /** `x` may be listed before every element of `s`. */
  predicate PrecedesAll(x: LeaveRequest, s: seq<LeaveRequest>, order: Order) {
    forall j :: 0 <= j < |s| ==> Precedes(x, s[j], order)
  }

  lemma PrecedesAllOfPermutation(x: LeaveRequest, s: seq<LeaveRequest>, t: seq<LeaveRequest>, y: LeaveRequest, order: Order)
    requires PrecedesAll(x, s, order) && Precedes(x, y, order)
    requires multiset(t) == multiset(s) + multiset{y}
    ensures PrecedesAll(x, t, order)
  {
    forall j | 0 <= j < |t| ensures Precedes(x, t[j], order) {
      assert t[j] in multiset(t);
      if t[j] != y {
        assert t[j] in multiset(s);
        var i :| 0 <= i < |s| && s[i] == t[j];
      }
    }
  }

  /** Inserts `x` into a sorted sequence, keeping it sorted. */
  function Insert(x: LeaveRequest, s: seq<LeaveRequest>, order: Order): (r: seq<LeaveRequest>)
    requires SortedBy(s, order)
    ensures SortedBy(r, order)
    ensures multiset(r) == multiset(s) + multiset{x}
  {
    if s == [] then [x]
    else if Precedes(x, s[0], order) then
      assert PrecedesAll(x, s, order);
      [x] + s
    else
      var t := Insert(x, s[1..], order);
      assert s == [s[0]] + s[1..];
      PrecedesAllOfPermutation(s[0], s[1..], t, x, order);
      [s[0]] + t
  }

  /** The rows of `s` ordered by start date. */
  function OrderBy(s: seq<LeaveRequest>, order: Order): (r: seq<LeaveRequest>)
    ensures SortedBy(r, order)
    ensures multiset(r) == multiset(s)
  {
    if s == [] then []
    else
      assert s == [s[0]] + s[1..];
      Insert(s[0], OrderBy(s[1..], order), order)
  }

  /** The rows of `s` that satisfy `keep`, each as often as it occurs in `s`. */
  function Select(s: seq<LeaveRequest>, keep: LeaveRequest -> bool): (r: seq<LeaveRequest>)
    ensures forall x :: multiset(r)[x] == if keep(x) then multiset(s)[x] else 0
  {
    if s == [] then []
    else
      assert s == [s[0]] + s[1..];
      (if keep(s[0]) then [s[0]] else []) + Select(s[1..], keep)
  }
}
