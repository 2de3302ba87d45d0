/** Shared vocabulary of the HR application: optional values, roles, request
    statuses, and the list combinators (filter, count, sort) that every
    component applies to its stored lists. */
module Common {

  datatype Option<T> = None | Some(value: T)

  /** A user's role. The application only ever writes the three named roles;
      any other stored value is kept as OtherRole. */
  datatype Role = Employee | Manager | Admin | OtherRole(name: string)

  /** The stored text of a role. */
  function RoleName(r: Role): string
  {
    match r
    case Employee => "employee"
    case Manager => "manager"
    case Admin => "admin"
    case OtherRole(name) => name
  }

  /** A request's review status; the server accepts any status text. */
  datatype Status = Pending | Approved | Rejected | OtherStatus(name: string)

  /** The status selector of the approval screens: 'all' or one status. */
  datatype StatusFilter = AllStatuses | OnlyStatus(status: Status)

  /** JavaScript truthiness of a nullable number: null and 0 are falsy. */
  predicate Truthy(t: Option<int>)
  {
    t.Some? && t.value != 0
  }

  /** JavaScript's coercion of a nullable number in arithmetic: null is 0. */
  function NumOf(t: Option<int>): int
  {
    if t.Some? then t.value else 0
  }

  /** r keeps some of the elements of s, in their order. */
  ghost predicate IsSubsequence<T>(r: seq<T>, s: seq<T>)
    decreases |s|
  {
    if r == [] then true
    else if s == [] then false
    else if r[0] == s[0] then IsSubsequence(r[1..], s[1..])
    else IsSubsequence(r, s[1..])
  }

  /** Array.prototype.filter. */
  function Filter<T(!new)>(s: seq<T>, p: T -> bool): (r: seq<T>)
    ensures |r| <= |s|
    ensures forall x :: x in r <==> x in s && p(x)
    ensures IsSubsequence(r, s)
    ensures (forall i :: 0 <= i < |s| ==> p(s[i])) ==> r == s
  {
    if s == [] then []
    else if p(s[0]) then [s[0]] + Filter(s[1..], p)
    else Filter(s[1..], p)
  }

  /** Filtering by two predicates that agree everywhere gives one result. */
  lemma {:induction false} FilterAgrees<T(!new)>(s: seq<T>, p: T -> bool, q: T -> bool)
    requires forall x :: p(x) == q(x)
    ensures Filter(s, p) == Filter(s, q)
  {
    if s != [] {
      FilterAgrees(s[1..], p, q);
    }
  }

  /** Filtering twice is filtering once by the conjunction. */
  lemma {:induction false} FilterFilter<T(!new)>(s: seq<T>, p: T -> bool, q: T -> bool, both: T -> bool)
    requires forall x :: both(x) == (p(x) && q(x))
    ensures Filter(Filter(s, p), q) == Filter(s, both)
  {
    if s != [] {
      FilterFilter(s[1..], p, q, both);
      if p(s[0]) {
        var t := [s[0]] + Filter(s[1..], p);
        assert t[0] == s[0] && t[1..] == Filter(s[1..], p);
      }
    }
  }

  /** The number of elements satisfying p (`s.filter(p).length`). */
  function Count<T(!new)>(s: seq<T>, p: T -> bool): nat
  {
    |Filter(s, p)|
  }

  /** Filtering a list with one more element at the end appends that
      element exactly when p holds. */
  lemma {:induction false} FilterSnoc<T(!new)>(a: seq<T>, y: T, p: T -> bool)
    ensures Filter(a + [y], p) == Filter(a, p) + if p(y) then [y] else []
  {
    var tail := if p(y) then [y] else [];
    if a == [] {
      assert a + [y] == [y];
      assert [y][1..] == [];
    } else {
      var ay := a + [y];
      assert ay[0] == a[0] && ay[1..] == a[1..] + [y];
      FilterSnoc(a[1..], y, p);
      if p(a[0]) {
        assert [a[0]] + (Filter(a[1..], p) + tail) == ([a[0]] + Filter(a[1..], p)) + tail;
      }
    }
  }

  /** Filtering a list that starts with x keeps x exactly when p holds. */
  lemma FilterCons<T(!new)>(x: T, s: seq<T>, p: T -> bool)
    ensures Filter([x] + s, p) == if p(x) then [x] + Filter(s, p) else Filter(s, p)
  {
    var xs := [x] + s;
    assert xs[0] == x && xs[1..] == s;
  }

  /** `xs.forEach(x => rows.push(f(x)))`: f of each element appended to
      rows, in order. */
  method PushEach<T>(rows: seq<string>, xs: seq<T>, f: T -> string) returns (r: seq<string>)
    ensures |r| == |rows| + |xs| && r[..|rows|] == rows
    ensures forall k :: 0 <= k < |xs| ==> r[|rows| + k] == f(xs[k])
  {
    r := rows;
    var i := 0;
    while i < |xs|
      invariant 0 <= i <= |xs|
      invariant |r| == |rows| + i && r[..|rows|] == rows
      invariant forall k :: 0 <= k < i ==> r[|rows| + k] == f(xs[k])
    {
      r := r + [f(xs[i])];
      i := i + 1;
    }
  }

  /** Three mutually exclusive predicates count at most |s| elements, and
      exactly |s| when every element satisfies one of them. */
  lemma {:induction false} CountThreeWay<T(!new)>(s: seq<T>, p: T -> bool, q: T -> bool, u: T -> bool)
    requires forall i :: 0 <= i < |s| ==> !(p(s[i]) && q(s[i])) && !(p(s[i]) && u(s[i])) && !(q(s[i]) && u(s[i]))
    ensures Count(s, p) + Count(s, q) + Count(s, u) <= |s|
    ensures (forall i :: 0 <= i < |s| ==> p(s[i]) || q(s[i]) || u(s[i])) ==>
              Count(s, p) + Count(s, q) + Count(s, u) == |s|
  {
    if s != [] {
      assert forall i :: 0 <= i < |s[1..]| ==> s[1..][i] == s[i + 1];
      CountThreeWay(s[1..], p, q, u);
    }
  }

  /** Who reviews whose requests: a manager reviews employees' requests, an
      admin reviews employees' and managers' requests, nobody else reviews. */
  predicate Reviewable(reviewer: Role, requester: Role)
  {
    match reviewer
    case Manager => requester == Employee
    case Admin => requester == Employee || requester == Manager
    case _ => false
  }

  /** The status selector applied to a list: 'all' keeps everything, a
      status keeps exactly the entries with that status, in order. */
  function ByStatus<T(!new)>(s: seq<T>, status: T -> Status, f: StatusFilter): (r: seq<T>)
    ensures f.AllStatuses? ==> r == s
    ensures f.OnlyStatus? ==> forall i :: 0 <= i < |r| ==> r[i] in s && status(r[i]) == f.status
    ensures f.OnlyStatus? ==> forall i :: 0 <= i < |s| && status(s[i]) == f.status ==> s[i] in r
    ensures IsSubsequence(r, s)
  {
    match f
    case AllStatuses =>
      assert forall i :: 0 <= i < |s| ==> (x => true)(s[i]);
      Filter(s, x => true)
    case OnlyStatus(st) => Filter(s, (x: T) => status(x) == st)
  }

  /** `s.filter(x => x.status === st).length`. */
  function CountStatus<T(!new)>(s: seq<T>, status: T -> Status, st: Status): nat
  {
    Count(s, (x: T) => status(x) == st)
  }

  /** The pending, approved and rejected counts never exceed the list's
      length, and add up to it when no other status occurs. */
  lemma StatusCountsBounded<T(!new)>(s: seq<T>, status: T -> Status)
    ensures CountStatus(s, status, Pending) + CountStatus(s, status, Approved)
            + CountStatus(s, status, Rejected) <= |s|
    ensures (forall i :: 0 <= i < |s| ==> status(s[i]) in {Pending, Approved, Rejected}) ==>
            CountStatus(s, status, Pending) + CountStatus(s, status, Approved)
            + CountStatus(s, status, Rejected) == |s|
  {
    CountThreeWay(s, (x: T) => status(x) == Pending, (x: T) => status(x) == Approved,
                  (x: T) => status(x) == Rejected);
  }

  // ---------------------------------------------------------------------
  // Sorting: Array.prototype.sort (stable) and SQL ORDER BY ... DESC.
  // Keys are pairs compared lexicographically, so that "ORDER BY a DESC,
  // b DESC" and single-key orders share one definition.
  // ---------------------------------------------------------------------

  predicate KeyGe(a: (int, int), b: (int, int))
  {
    a.0 > b.0 || (a.0 == b.0 && a.1 >= b.1)
  }

  ghost predicate SortedDesc<T>(s: seq<T>, key: T -> (int, int))
  {
    forall i, j :: 0 <= i < j < |s| ==> KeyGe(key(s[i]), key(s[j]))
  }

  /** A suffix of a sorted sequence is sorted. */
  lemma SortedTail<T>(s: seq<T>, key: T -> (int, int))
    requires s != [] && SortedDesc(s, key)
    ensures SortedDesc(s[1..], key)
  {
    forall i, j | 0 <= i < j < |s[1..]|
      ensures KeyGe(key(s[1..][i]), key(s[1..][j]))
    {
      assert s[1..][i] == s[i + 1] && s[1..][j] == s[j + 1];
    }
  }

  /** An element at least as great as every element of a sorted sequence
      can be put in front of it. */
  lemma SortedCons<T>(y: T, t: seq<T>, key: T -> (int, int))
    requires SortedDesc(t, key)
    requires forall k :: 0 <= k < |t| ==> KeyGe(key(y), key(t[k]))
    ensures SortedDesc([y] + t, key)
  {
    forall i, j | 0 <= i < j < |[y] + t|
      ensures KeyGe(key(([y] + t)[i]), key(([y] + t)[j]))
    {
      assert ([y] + t)[j] == t[j - 1];
      if i > 0 {
        assert ([y] + t)[i] == t[i - 1];
      }
    }
  }

  /** The head of a sorted sequence bounds every element of a permutation
      of its tail with one element no greater than the head. */
  lemma HeadBounds<T>(x: T, s: seq<T>, t: seq<T>, key: T -> (int, int))
    requires s != [] && SortedDesc(s, key) && KeyGe(key(s[0]), key(x))
    requires multiset(t) == multiset(s[1..]) + multiset{x}
    ensures forall k :: 0 <= k < |t| ==> KeyGe(key(s[0]), key(t[k]))
  {
    forall k | 0 <= k < |t| ensures KeyGe(key(s[0]), key(t[k]))
    {
      assert t[k] in multiset(t);
      if t[k] != x {
        assert t[k] in multiset(s[1..]);
        var m :| 0 <= m < |s[1..]| && s[1..][m] == t[k];
        assert s[m + 1] == t[k];
      }
    }
  }

  /** Insert x before the first element it is not smaller than. */
  function Insert<T>(x: T, s: seq<T>, key: T -> (int, int)): (r: seq<T>)
    requires SortedDesc(s, key)
    ensures SortedDesc(r, key)
    ensures multiset(r) == multiset(s) + multiset{x}
    ensures |r| == |s| + 1
  {
    if s == [] then [x]
    else if KeyGe(key(x), key(s[0])) then
      SortedCons(x, s, key);
      [x] + s
    else
      SortedTail(s, key);
      var t := Insert(x, s[1..], key);
      assert s == [s[0]] + s[1..];
      HeadBounds(x, s, t, key);
      SortedCons(s[0], t, key);
      [s[0]] + t
  }

  /** A stable insertion sort, greatest key first. */
  function SortDesc<T>(s: seq<T>, key: T -> (int, int)): (r: seq<T>)
    ensures SortedDesc(r, key)
    ensures multiset(r) == multiset(s)
    ensures |r| == |s|
  {
    if s == [] then []
    else
      assert s == [s[0]] + s[1..];
      Insert(s[0], SortDesc(s[1..], key), key)
  }

  /** The index `findIndex` returns: the first element satisfying p. */
  function FirstIndex<T>(s: seq<T>, p: T -> bool): (r: Option<nat>)
    ensures r.Some? ==> r.value < |s| && p(s[r.value])
    ensures r.Some? ==> forall j :: 0 <= j < r.value ==> !p(s[j])
    ensures r.None? ==> forall j :: 0 <= j < |s| ==> !p(s[j])
  {
    if s == [] then None
    else if p(s[0]) then Some(0)
    else match FirstIndex(s[1..], p)
      case None => None
      case Some(k) => Some(k + 1)
  }

  /** `s.find(p)`: the first element satisfying p, if any. */
  function Find<T>(s: seq<T>, p: T -> bool): (r: Option<T>)
    ensures r.Some? <==> exists i :: 0 <= i < |s| && p(s[i])
    ensures r.Some? ==> r.value in s && p(r.value)
  {
    match FirstIndex(s, p)
    case None => None
    case Some(k) => Some(s[k])
  }

  /** `s.slice(0, n)`. */
  function Take<T>(s: seq<T>, n: nat): (r: seq<T>)
    ensures |r| == if n < |s| then n else |s|
    ensures forall i :: 0 <= i < |r| ==> r[i] == s[i]
  {
    if n < |s| then s[..n] else s
  }

  /** `s.map(x => x.id === id ? f(x) : x)`: only matching elements change. */
  function MapWhere<T>(s: seq<T>, matches: T -> bool, f: T -> T): (r: seq<T>)
    ensures |r| == |s|
    ensures forall i :: 0 <= i < |s| ==> r[i] == if matches(s[i]) then f(s[i]) else s[i]
  {
    if s == [] then []
    else [if matches(s[0]) then f(s[0]) else s[0]] + MapWhere(s[1..], matches, f)
  }
}
