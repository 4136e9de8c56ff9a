/**
 Routing an image request to an account under an enabled policy: sort the accounts, cut them into
 groups, filter the members of the selected groups, and lease the best one.
 */
module AccountRouting {
  import opened Basics
  import opened Text

  datatype AccountStatus = Normal | Disabled | Abnormal | Limited

  /**
   One stored login with its public account.  `title` is the lower-case e-mail or file name,
   `limit` the `image_gen` entry of the limits, `dailyBase` the quota first seen today.
   */
  datatype Account = Account(
    name: string, token: string, matchesProvider: bool, authDisabled: bool,
    title: string, importedAt: Option<int>, status: AccountStatus,
    quota: int, limit: Option<int>, dailyBase: int, refreshNeeded: bool,
    priority: int, fail: int, lastUsed: string)

  datatype SortMode = ByName | ByQuota | ByImport

  datatype RawPolicy = RawPolicy(sortMode: string, groupSize: int, groups: seq<int>, reserveMode: string, percent: int)

  datatype Policy = Policy(sortMode: SortMode, groupSize: nat, groups: seq<nat>, daily: bool, percent: nat)

  const DAILY := "daily_first_seen_percent"

  // --------------------------------------------------------------------------------------------
  // The policy

  predicate Ascending(xs: seq<int>) { forall i, j :: 0 <= i < j < |xs| ==> xs[i] < xs[j] }

  lemma AscendingCons(x: nat, rest: seq<nat>)
    requires Ascending(rest) && forall y :: y in rest ==> x < y
    ensures Ascending([x] + rest)
  {
    assert forall k :: 0 <= k < |rest| ==> rest[k] in rest;
  }

  function Insert(xs: seq<nat>, x: nat): (ys: seq<nat>)
    requires Ascending(xs)
    ensures Ascending(ys)
    ensures forall y :: y in ys <==> y in xs || y == x
  {
    if xs == [] || x < xs[0] then
      assert forall y :: y in xs ==> x < y;
      AscendingCons(x, xs);
      [x] + xs
    else if x == xs[0] then xs
    else
      assert xs == [xs[0]] + xs[1..];
      assert forall y :: y in xs[1..] ==> xs[0] < y;
      var rest := Insert(xs[1..], x);
      AscendingCons(xs[0], rest);
      [xs[0]] + rest
  }

  /** The normalized group list: negatives and repetitions dropped, in ascending order. */
  method NormalizeGroups(groups: seq<int>) returns (next: seq<nat>)
    ensures Ascending(next)
    ensures forall g :: g in next <==> g in groups && g >= 0
  {
    var seen: set<int> := {};
    next := [];
    for k := 0 to |groups|
      invariant Ascending(next)
      invariant forall g :: g in next <==> g in groups[..k] && g >= 0
      invariant forall g :: g in seen <==> g in next
    {
      var g := groups[k];
      assert groups[..k + 1] == groups[..k] + [g];
      if g < 0 { continue; }
      if g in seen { continue; }
      seen := seen + {g};
      next := Insert(next, g);
    }
    assert groups[..|groups|] == groups;
  }

  /** An ascending list is determined by its members, so the normalized list does not depend on the input order. */
  lemma AscendingIsUnique(xs: seq<int>, ys: seq<int>)
    requires Ascending(xs) && Ascending(ys) && forall x :: x in xs <==> x in ys
    ensures xs == ys
  {
    assert xs != [] ==> xs[0] in xs;
    assert ys != [] ==> ys[0] in ys;
    if xs != [] && ys != [] {
      assert xs[0] == ys[0];
      forall x ensures x in xs[1..] <==> x in ys[1..] {
        assert x in xs[1..] ==> x in xs && x != xs[0];
        assert x in ys[1..] ==> x in ys && x != ys[0];
        assert x in xs && x != xs[0] ==> x in xs[1..] by { assert xs == [xs[0]] + xs[1..]; }
        assert x in ys && x != ys[0] ==> x in ys[1..] by { assert ys == [ys[0]] + ys[1..]; }
      }
      AscendingIsUnique(xs[1..], ys[1..]);
    }
  }

  function NormalizedMode(mode: string): SortMode {
    var m := Lower(Trim(mode));
    if m == "name" then ByName else if m == "quota" then ByQuota else ByImport
  }

  /** White space around a mode and the case of its letters do not matter; whatever is unknown is by import. */
  lemma {:induction false} ModeIsRead(before: string, mode: string, after: string)
    requires AllSpace(before) && AllSpace(after) && Trimmed(mode)
    ensures NormalizedMode(before + mode + after) == ByName <==> Lower(mode) == "name"
    ensures NormalizedMode(before + mode + after) == ByQuota <==> Lower(mode) == "quota"
    ensures DailyReserve(before + mode + after) <==> mode in {"", "daily_first_seen_percent"}
  {
    TrimIsCore(before, mode, after);
  }

  /** A blank reserve mode means the daily one. */
  predicate DailyReserve(mode: string) { Trim(mode) == "" || Trim(mode) == DAILY }

  method Normalize(p: RawPolicy) returns (next: Policy)
    ensures next.groupSize >= 1 && (p.groupSize >= 1 ==> next.groupSize == p.groupSize)
            && (p.groupSize < 1 ==> next.groupSize == 10)
    ensures 0 <= next.percent <= 100 && (0 <= p.percent <= 100 ==> next.percent == p.percent)
    ensures p.percent > 100 ==> next.percent == 100
    ensures Ascending(next.groups) && forall g :: g in next.groups <==> g in p.groups && g >= 0
    ensures next.sortMode == NormalizedMode(p.sortMode) && next.daily == DailyReserve(p.reserveMode)
  {
    var groups := NormalizeGroups(p.groups);
    next := Policy(NormalizedMode(p.sortMode), if p.groupSize <= 0 then 10 else p.groupSize, groups,
                   DailyReserve(p.reserveMode), Min(Max(p.percent, 0), 100));
  }

  // --------------------------------------------------------------------------------------------
  // The reserve

  /** `extractImageQuotaSnapshot`. */
  function QuotaSnapshot(a: Account): Option<int> {
    if a.limit.Some? then Some(Max(0, a.limit.value)) else if a.quota > 0 then Some(a.quota) else None
  }

  function Remaining(a: Account): nat {
    match QuotaSnapshot(a)
    case Some(r) => Max(0, r)
    case None => Max(0, a.quota)
  }

  /** What a base and a percentage hold back: rounded up, but always leaving one. */
  function ReserveOf(base: int, percent: nat): nat {
    if base <= 0 then 0 else Min((base * percent + 99) / 100, base - 1)
  }

  function ReserveBase(a: Account): int {
    var snapshot := QuotaSnapshot(a);
    var base := if a.dailyBase > 0 then a.dailyBase else if snapshot.Some? then snapshot.value else 0;
    if snapshot.None? || base <= 0 then Max(0, a.quota) else base
  }

  predicate AboveReserve(a: Account, p: Policy) {
    !p.daily || (Remaining(a) > 0 && Remaining(a) > ReserveOf(ReserveBase(a), p.percent))
  }

  /** The reserve is below the base, at least the percentage unless capped, and grows with the percentage. */
  lemma ReserveBounds(base: int, percent: nat, more: nat)
    requires base > 0 && percent <= more
    ensures 0 <= ReserveOf(base, percent) < base
    ensures ReserveOf(base, percent) == base - 1
            || 100 * (ReserveOf(base, percent) - 1) < base * percent <= 100 * ReserveOf(base, percent)
    ensures ReserveOf(base, percent) <= ReserveOf(base, more)
    ensures ReserveOf(base, 0) == 0 && ReserveOf(base, 100) == base - 1
    ensures ReserveOf(-base, percent) == 0 && ReserveOf(0, percent) == 0
  {
    assert base * more - base * percent == base * (more - percent);
    assert base * (more - percent) >= 0;
  }

  /** Serving one request after another from a fresh day's quota accepts exactly what is above the reserve. */
  method DrainDay(a: Account, p: Policy) returns (accepted: nat, last: Account)
    requires p.daily && a.dailyBase > 0 && a.limit == Some(a.dailyBase)
    ensures accepted == a.dailyBase - ReserveOf(a.dailyBase, p.percent)
    ensures !AboveReserve(last, p) && last == a.(limit := Some(a.dailyBase - accepted))
    ensures Remaining(last) == Max(ReserveOf(a.dailyBase, p.percent), 0)
  {
    ReserveBounds(a.dailyBase, p.percent, p.percent);
    accepted, last := 0, a;
    while AboveReserve(last, p)
      invariant 0 <= accepted <= a.dailyBase - ReserveOf(a.dailyBase, p.percent)
      invariant last == a.(limit := Some(a.dailyBase - accepted))
      decreases Remaining(last)
    {
      last := last.(limit := Some(last.limit.value - 1));
      accepted := accepted + 1;
    }
  }

  // --------------------------------------------------------------------------------------------
  // The order of the accounts

  predicate StringLess(a: string, b: string)
    decreases |a|
  {
    b != "" && (a == "" || a[0] < b[0] || (a[0] == b[0] && StringLess(a[1..], b[1..])))
  }

  predicate DiffersAt(a: string, b: string, k: int) {
    0 <= k < |a| && k < |b| && a[..k] == b[..k] && a[k] < b[k]
  }

  /** The order of the bytes: a proper prefix comes first, otherwise the first difference decides. */
  lemma {:induction false} StringLessIff(a: string, b: string)
    ensures StringLess(a, b) <==> a < b || exists k :: DiffersAt(a, b, k)
    decreases |a|
  {
    if a != "" && b != "" && a[0] == b[0] {
      StringLessIff(a[1..], b[1..]);
      assert a == [a[0]] + a[1..] && b == [b[0]] + b[1..];
      forall k | DiffersAt(a, b, k) ensures DiffersAt(a[1..], b[1..], k - 1) { DiffersInRest(a, b, k); }
      forall k | DiffersAt(a[1..], b[1..], k) ensures DiffersAt(a, b, k + 1) { DiffersInRest(a, b, k + 1); }
    } else if a != "" && b != "" && a[0] < b[0] {
      assert DiffersAt(a, b, 0);
    }
  }

  lemma DiffersInRest(a: string, b: string, k: int)
    requires a != "" && b != "" && a[0] == b[0]
    ensures DiffersAt(a, b, k) <==> DiffersAt(a[1..], b[1..], k - 1)
  {
    if 0 < k < |a| && k < |b| {
      assert a[..k] == [a[0]] + a[1..][..k - 1] && b[..k] == [b[0]] + b[1..][..k - 1];
      assert a[1..][..k - 1] == a[..k][1..] && b[1..][..k - 1] == b[..k][1..];
    }
  }

  lemma {:induction false} StringLessTrans(a: string, b: string, c: string)
    requires StringLess(a, b) && StringLess(b, c)
    ensures StringLess(a, c)
    decreases |a|
  {
    if a != "" && a[0] == b[0] == c[0] { StringLessTrans(a[1..], b[1..], c[1..]); }
  }

  lemma {:induction false} StringLessTotal(a: string, b: string)
    ensures a == b || StringLess(a, b) || StringLess(b, a)
    ensures !(StringLess(a, b) && StringLess(b, a)) && !StringLess(a, a)
    decreases |a|
  {
    if a != "" && b != "" && a[0] == b[0] {
      StringLessTotal(a[1..], b[1..]);
      assert a == [a[0]] + a[1..] && b == [b[0]] + b[1..];
    }
    if a != "" { StringLessTotal(a[1..], a[1..]); }
  }

  predicate LabelBefore(a: Account, b: Account) {
    if a.title != b.title then StringLess(a.title, b.title) else StringLess(a.name, b.name)
  }

  /** The comparison of `sortRoutingCandidates`. */
  predicate Before(mode: SortMode, a: Account, b: Account) {
    match mode
    case ByName => LabelBefore(a, b)
    case ByQuota => if Remaining(a) != Remaining(b) then Remaining(a) > Remaining(b) else LabelBefore(a, b)
    case ByImport =>
      if a.importedAt.Some? && b.importedAt.Some? && a.importedAt != b.importedAt
      then a.importedAt.value < b.importedAt.value
      else if a.importedAt.Some? != b.importedAt.Some? then a.importedAt.Some?
      else LabelBefore(a, b)
  }

  lemma LabelBeforeTrans(a: Account, b: Account, c: Account)
    requires LabelBefore(a, b) && LabelBefore(b, c)
    ensures LabelBefore(a, c)
  {
    StringLessTotal(a.title, b.title);
    StringLessTotal(b.title, c.title);
    if a.title == b.title && b.title == c.title {
      StringLessTrans(a.name, b.name, c.name);
    } else if a.title != b.title && b.title != c.title {
      StringLessTrans(a.title, b.title, c.title);
    }
  }

  /** Every sort mode is a strict total order on accounts with different names. */
  lemma BeforeIsTotal(mode: SortMode, a: Account, b: Account)
    ensures !Before(mode, a, a) && !(Before(mode, a, b) && Before(mode, b, a))
    ensures a.name != b.name ==> Before(mode, a, b) || Before(mode, b, a)
  {
    StringLessTotal(a.title, b.title);
    StringLessTotal(a.name, b.name);
    StringLessTotal(a.name, a.name);
  }

  lemma BeforeTrans(mode: SortMode, a: Account, b: Account, c: Account)
    requires Before(mode, a, b) && Before(mode, b, c)
    ensures Before(mode, a, c)
  {
    if LabelBefore(a, b) && LabelBefore(b, c) { LabelBeforeTrans(a, b, c); }
  }

  predicate DistinctNames(xs: seq<Account>) { forall i, j :: 0 <= i < j < |xs| ==> xs[i].name != xs[j].name }

  predicate Sorted(mode: SortMode, xs: seq<Account>) { forall i, j :: 0 <= i < j < |xs| ==> Before(mode, xs[i], xs[j]) }

  function InsertAccount(mode: SortMode, xs: seq<Account>, a: Account): (ys: seq<Account>)
    ensures multiset(ys) == multiset(xs) + multiset{a}
  {
    if xs == [] || Before(mode, a, xs[0]) then
      [a] + xs
    else
      assert xs == [xs[0]] + xs[1..];
      [xs[0]] + InsertAccount(mode, xs[1..], a)
  }

  /** The sorted accounts; for distinct names the order leaves no choice (`SortedIsUnique`). */
  function SortAccounts(mode: SortMode, xs: seq<Account>): (ys: seq<Account>)
    ensures multiset(ys) == multiset(xs)
  {
    if xs == [] then []
    else
      assert xs == [xs[0]] + xs[1..];
      InsertAccount(mode, SortAccounts(mode, xs[1..]), xs[0])
  }

  lemma {:induction false} InsertedMember(mode: SortMode, xs: seq<Account>, a: Account, x: Account)
    requires x in InsertAccount(mode, xs, a)
    ensures x in xs || x == a
  {
    assert x in multiset(InsertAccount(mode, xs, a));
  }

  lemma {:induction false} InsertIsSorted(mode: SortMode, xs: seq<Account>, a: Account)
    requires Sorted(mode, xs) && forall x :: x in xs ==> x.name != a.name
    ensures Sorted(mode, InsertAccount(mode, xs, a))
  {
    if xs == [] {
    } else if Before(mode, a, xs[0]) {
      forall i | 1 <= i < |xs| ensures Before(mode, a, xs[i]) { BeforeTrans(mode, a, xs[0], xs[i]); }
    } else {
      assert forall x :: x in xs[1..] ==> x in xs;
      InsertIsSorted(mode, xs[1..], a);
      var rest := InsertAccount(mode, xs[1..], a);
      BeforeIsTotal(mode, a, xs[0]);
      forall i | 0 <= i < |rest| ensures Before(mode, xs[0], rest[i]) {
        InsertedMember(mode, xs[1..], a, rest[i]);
      }
    }
  }

  lemma {:induction false} SortIsSorted(mode: SortMode, xs: seq<Account>)
    requires DistinctNames(xs)
    ensures Sorted(mode, SortAccounts(mode, xs)) && |SortAccounts(mode, xs)| == |xs|
  {
    var ys := SortAccounts(mode, xs);
    assert |multiset(ys)| == |ys| && |multiset(xs)| == |xs|;
    if xs != [] {
      SortIsSorted(mode, xs[1..]);
      var rest := SortAccounts(mode, xs[1..]);
      forall x | x in rest ensures x.name != xs[0].name {
        assert x in multiset(rest);
        assert x in xs[1..];
      }
      InsertIsSorted(mode, rest, xs[0]);
    }
  }

  /** Not later by title, and for equal titles earlier by name. */
  predicate ByLabel(a: Account, b: Account) {
    !StringLess(b.title, a.title) && (a.title == b.title ==> StringLess(a.name, b.name))
  }

  /** What each mode promises of two accounts of which `a` stands before `b`. */
  predicate StandsBefore(mode: SortMode, a: Account, b: Account) {
    match mode
    case ByName => ByLabel(a, b)
    case ByQuota => QuotaLeft(a) >= QuotaLeft(b) && (QuotaLeft(a) == QuotaLeft(b) ==> ByLabel(a, b))
    case ByImport =>
      && (b.importedAt.Some? ==> a.importedAt.Some? && a.importedAt.value <= b.importedAt.value)
      && (a.importedAt == b.importedAt ==> ByLabel(a, b))
  }

  /** The quota that counts: the limit if there is one, else the plain figure, and never below zero. */
  function QuotaLeft(a: Account): nat { if a.limit.Some? then Max(a.limit.value, 0) else Max(a.quota, 0) }

  lemma RemainingIs(a: Account)
    ensures Remaining(a) == QuotaLeft(a)
    ensures ReserveBase(a)
            == if (a.limit.Some? || a.quota > 0) && a.dailyBase > 0 then a.dailyBase
               else if a.limit.Some? && a.limit.value > 0 then a.limit.value
               else Max(a.quota, 0)
  {
  }

  /** Accounts with an import time come before those without, the fuller before the emptier, and so on. */
  lemma {:induction false} SortOrder(mode: SortMode, xs: seq<Account>, i: nat, j: nat)
    requires DistinctNames(xs) && i < j < |xs|
    ensures |SortAccounts(mode, xs)| == |xs|
    ensures StandsBefore(mode, SortAccounts(mode, xs)[i], SortAccounts(mode, xs)[j])
  {
    SortIsSorted(mode, xs);
    var a, b := SortAccounts(mode, xs)[i], SortAccounts(mode, xs)[j];
    assert Before(mode, a, b);
    StringLessTotal(a.title, b.title);
    StringLessTotal(a.name, b.name);
    RemainingIs(a);
    RemainingIs(b);
  }

  /** Two sorted lists of the same accounts start alike. */
  lemma SortedHeads(mode: SortMode, xs: seq<Account>, ys: seq<Account>)
    requires Sorted(mode, xs) && Sorted(mode, ys) && multiset(xs) == multiset(ys) && xs != [] && ys != []
    ensures xs[0] == ys[0]
  {
    assert xs[0] in multiset(ys) && ys[0] in multiset(xs);
    BeforeIsTotal(mode, xs[0], ys[0]);
  }

  lemma SortedIsUnique(mode: SortMode, xs: seq<Account>, ys: seq<Account>)
    requires Sorted(mode, xs) && Sorted(mode, ys) && multiset(xs) == multiset(ys)
    ensures xs == ys
  {
    assert |multiset(xs)| == |xs| && |multiset(ys)| == |ys|;
    if xs != [] {
      SortedHeads(mode, xs, ys);
      assert xs == [xs[0]] + xs[1..] && ys == [ys[0]] + ys[1..];
      assert multiset(xs[1..]) == multiset(xs) - multiset{xs[0]};
      assert multiset(ys[1..]) == multiset(ys) - multiset{ys[0]};
      SortedIsUnique(mode, xs[1..], ys[1..]);
    }
  }

  /** However the accounts were loaded, the sorted list, and with it every group, is the same. */
  lemma {:induction false} GroupingIsCanonical(mode: SortMode, xs: seq<Account>, ys: seq<Account>, size: nat)
    requires DistinctNames(xs) && DistinctNames(ys) && multiset(xs) == multiset(ys) && size >= 1
    ensures SortAccounts(mode, xs) == SortAccounts(mode, ys)
    ensures Cut(SortAccounts(mode, xs), size) == Cut(SortAccounts(mode, ys), size)
  {
    SortIsSorted(mode, xs);
    SortIsSorted(mode, ys);
    SortedIsUnique(mode, SortAccounts(mode, xs), SortAccounts(mode, ys));
  }

  // --------------------------------------------------------------------------------------------
  // Groups

  /** Rounded up, as the ceiling of the quotient. */
  function GroupCount(n: nat, size: nat): nat
    requires size >= 1
  {
    (n + size - 1) / size
  }

  /** The accounts in runs of `size`, the last one possibly shorter. */
  function Cut(xs: seq<Account>, size: nat): (cut: seq<seq<Account>>)
    requires size >= 1
    decreases |xs|
  {
    if xs == [] then [] else if |xs| <= size then [xs] else [xs[..size]] + Cut(xs[size..], size)
  }

  lemma {:induction false} CutLength(xs: seq<Account>, size: nat)
    requires size >= 1
    ensures |Cut(xs, size)| == GroupCount(|xs|, size)
    decreases |xs|
  {
    CeilDivBounds(|xs|, size, 0);
    if |xs| > size {
      CeilDivStep(|xs|, size);
      CutLength(xs[size..], size);
    } else if xs != [] {
      CeilDivBounds(|xs|, size, 1);
    }
  }

  /** Group g is the slice the program takes, from g * size up to the next multiple or the end. */
  lemma {:induction false} CutByIndex(xs: seq<Account>, size: nat, g: nat)
    requires size >= 1
    ensures g < |Cut(xs, size)| <==> g * size < |xs|
    ensures g < |Cut(xs, size)| ==> Cut(xs, size)[g] == xs[g * size..Min(|xs|, g * size + size)]
    decreases |xs|
  {
    if g == 0 {
      assert g * size == 0;
    } else {
      MulPred(g, size);
      MulNonNegative(g - 1, size);
      var at := (g - 1) * size;
      assert g * size == at + size;
      if |xs| > size {
        CutByIndex(xs[size..], size, g - 1);
        if at < |xs| - size { SliceOfRest(xs, size, at, Min(|xs| - size, at + size)); }
      }
    }
  }

  lemma SliceOfRest(xs: seq<Account>, size: nat, from: nat, to: nat)
    requires size <= |xs| && from <= to <= |xs| - size
    ensures xs[size..][from..to] == xs[size + from..size + to]
  {
  }

  lemma MulNonNegative(g: nat, size: nat)
    ensures g * size >= 0
  {
  }

  lemma MulPred(g: nat, size: nat)
    requires g >= 1
    ensures g * size == (g - 1) * size + size
  {
  }

  lemma CeilDivStep(n: nat, size: nat)
    requires size >= 1 && n > size
    ensures GroupCount(n, size) == 1 + GroupCount(n - size, size)
  {
    var c := GroupCount(n - size, size);
    CeilDivBounds(n - size, size, c);
    if c > 0 { CeilDivBounds(n - size, size, c - 1); }
    MulPred(c + 1, size);
    CeilDivBounds(n, size, c);
    CeilDivBounds(n, size, c + 1);
  }

  /** The members of the given groups, in order. */
  function Members(cut: seq<seq<Account>>, groups: seq<nat>): seq<Account> {
    if groups == [] then []
    else
      var last := groups[|groups| - 1];
      Members(cut, groups[..|groups| - 1]) + (if last < |cut| then cut[last] else [])
  }

  function UpTo(count: nat): (gs: seq<nat>)
    ensures |gs| == count && forall k :: 0 <= k < count ==> gs[k] == k
  {
    if count == 0 then [] else UpTo(count - 1) + [count - 1]
  }

  lemma MembersFromSecond(cut: seq<seq<Account>>, n: nat)
    requires 1 <= n <= |cut|
    ensures Members(cut, UpTo(n)) == cut[0] + Members(cut[1..], UpTo(n - 1))
  {
    assert UpTo(n)[..n - 1] == UpTo(n - 1);
    if n > 1 {
      MembersFromSecond(cut, n - 1);
      assert UpTo(n - 1)[..n - 2] == UpTo(n - 2);
    }
  }

  /** The groups 0 to count - 1, one after the other, are exactly the sorted accounts: each once, none left over. */
  lemma {:induction false} AllGroupsHoldAll(xs: seq<Account>, size: nat)
    requires size >= 1
    ensures Members(Cut(xs, size), UpTo(|Cut(xs, size)|)) == xs
    decreases |xs|
  {
    if xs != [] {
      var cut := Cut(xs, size);
      MembersFromSecond(cut, |cut|);
      if |xs| > size {
        AllGroupsHoldAll(xs[size..], size);
        assert cut[1..] == Cut(xs[size..], size);
        assert xs == xs[..size] + xs[size..];
      } else {
        assert cut[1..] == [];
      }
    }
  }

  lemma MulGap(a: nat, b: nat, size: nat)
    requires a < b
    ensures a * size + size <= b * size
    decreases b
  {
    assert b * size == (b - 1) * size + size;
    if a < b - 1 { MulGap(a, b - 1, size); }
  }

  lemma CeilDivBounds(n: nat, size: nat, q: nat)
    requires size >= 1
    ensures q * size < n <==> q < GroupCount(n, size)
  {
    var c := GroupCount(n, size);
    assert c * size <= n + size - 1 < c * size + size;
    if q < c { MulGap(q, c, size); } else if c < q { MulGap(c, q, size); }
  }

  // --------------------------------------------------------------------------------------------
  // Filters and choice

  /** What one call brings along: the caller's filter, if any, and whether disabled accounts will do. */
  datatype Ask = Ask(filtered: bool, allow: Account -> bool, allowDisabled: bool)

  predicate Loaded(a: Account) { a.token != "" && a.matchesProvider }

  function LoadedOnly(xs: seq<Account>): (ys: seq<Account>)
    ensures forall a :: a in ys <==> a in xs && Loaded(a)
  {
    if xs == [] then []
    else
      assert xs == xs[..|xs| - 1] + [xs[|xs| - 1]];
      LoadedOnly(xs[..|xs| - 1]) + (if Loaded(xs[|xs| - 1]) then [xs[|xs| - 1]] else [])
  }

  predicate Ready(a: Account, ask: Ask) {
    (ask.allowDisabled || a.status != Disabled) && a.status != Abnormal && a.status != Limited && a.quota > 0
  }

  /** The filters that the potential count shares with the others: everything but the lease. */
  predicate Suitable(a: Account, ask: Ask, p: Policy) {
    && (ask.filtered ==> ask.allow(a))
    && !(a.authDisabled && !ask.allowDisabled)
    && !(a.status == Disabled && !ask.allowDisabled)
    && a.status != Abnormal
    && (Ready(a, ask) || a.refreshNeeded)
    && (Ready(a, ask) ==> AboveReserve(a, p))
  }

  predicate Eligible(a: Account, ask: Ask, p: Policy, excluded: set<string>, leases: set<string>) {
    Suitable(a, ask, p) && a.token !in excluded && a.token !in leases
  }

  /** The comparison within a group: ready first, then priority, fewest failures, least recently used. */
  predicate Better(a: Account, b: Account, ask: Ask) {
    if Ready(a, ask) != Ready(b, ask) then Ready(a, ask)
    else if a.priority != b.priority then a.priority > b.priority
    else if a.fail != b.fail then a.fail < b.fail
    else StringLess(a.lastUsed, b.lastUsed)
  }

  /** An account that works as it is: normal or, where that will do, disabled, with quota left. */
  predicate Works(a: Account, ask: Ask) {
    a.quota > 0 && (a.status == Normal || (a.status == Disabled && ask.allowDisabled))
  }

  /**
   What the choice owes to a candidate `c` that it passed over, quality by quality: if `c` works so does
   the account chosen; of two that both work, or both do not, the chosen one has no lower priority; for
   equal priorities it has no more failures; and for equal failures it was not used later.
   */
  predicate Justified(chosen: Account, c: Account, ask: Ask) {
    && (Works(c, ask) ==> Works(chosen, ask))
    && (Works(c, ask) == Works(chosen, ask) ==>
          && c.priority <= chosen.priority
          && (c.priority == chosen.priority ==>
                chosen.fail <= c.fail && (chosen.fail == c.fail ==> !StringLess(c.lastUsed, chosen.lastUsed))))
  }

  lemma UnbeatenIsJustified(chosen: Account, c: Account, ask: Ask)
    ensures !Better(c, chosen, ask) <==> Justified(chosen, c, ask)
  {
    StringLessTotal(c.lastUsed, chosen.lastUsed);
  }

  /** The accounts a request may be given, field by field; one that does not work now must be due for a refresh. */
  predicate MayServe(a: Account, ask: Ask, p: Policy) {
    && (ask.filtered ==> ask.allow(a)) && (ask.allowDisabled || !a.authDisabled)
    && (a.status in {Normal, Limited} || (a.status == Disabled && ask.allowDisabled))
    && (if Works(a, ask) then !p.daily || QuotaLeft(a) > ReserveOf(ReserveBase(a), p.percent) else a.refreshNeeded)
  }

  lemma SuitableIff(a: Account, ask: Ask, p: Policy)
    ensures Suitable(a, ask, p) <==> MayServe(a, ask, p)
    ensures Ready(a, ask) <==> Works(a, ask)
  {
    RemainingIs(a);
    if ReserveBase(a) > 0 { ReserveIsNonNegative(ReserveBase(a), p.percent); }
  }

  lemma ReserveIsNonNegative(base: int, percent: nat)
    requires base > 0
    ensures ReserveOf(base, percent) >= 0
  {
    MulNonNegative(base, percent);
  }

  lemma BetterTrans(a: Account, b: Account, c: Account, ask: Ask)
    requires Better(a, b, ask) && Better(b, c, ask)
    ensures Better(a, c, ask)
  {
    if StringLess(a.lastUsed, b.lastUsed) && StringLess(b.lastUsed, c.lastUsed) {
      StringLessTrans(a.lastUsed, b.lastUsed, c.lastUsed);
    }
  }

  predicate Unbeaten(best: Account, cs: seq<Account>, ask: Ask) { forall c :: c in cs ==> !Better(c, best, ask) }

  lemma UnbeatenOfMore(first: Account, best: Account, rest: seq<Account>, ask: Ask)
    requires Unbeaten(best, rest, ask)
    ensures Better(first, best, ask) ==> Unbeaten(first, [first] + rest, ask)
    ensures !Better(first, best, ask) ==> Unbeaten(best, [first] + rest, ask)
  {
    StringLessTotal(first.lastUsed, first.lastUsed);
    if Better(first, best, ask) {
      forall c | c in rest ensures !Better(c, first, ask) {
        if Better(c, first, ask) { BetterTrans(c, first, best, ask); }
      }
    }
  }

  lemma BestExists(cs: seq<Account>, ask: Ask)
    requires cs != []
    ensures exists best :: best in cs && Unbeaten(best, cs, ask)
  {
    var first, rest := cs[0], cs[1..];
    assert cs == [first] + rest;
    if rest == [] {
      StringLessTotal(first.lastUsed, first.lastUsed);
      assert Unbeaten(first, cs, ask);
    } else {
      BestExists(rest, ask);
      var best: Account :| best in rest && Unbeaten(best, rest, ask);
      UnbeatenOfMore(first, best, rest, ask);
    }
  }

  function InRange(groups: seq<nat>, count: nat): (gs: seq<nat>)
    ensures forall g :: g in gs <==> g in groups && g < count
  {
    if groups == [] then []
    else
      var n := |groups| - 1;
      assert groups == groups[..n] + [groups[n]];
      InRange(groups[..n], count) + (if groups[n] < count then [groups[n]] else [])
  }

  /** The groups a request may use: the enabled ones that exist, or all when none of them does. */
  function SelectedGroups(p: Policy, count: nat): seq<nat> {
    var gs := InRange(p.groups, count);
    if gs == [] && p.groups != [] && count > 0 then UpTo(count) else gs
  }

  /** The potential count alone also takes all groups when none is enabled. */
  function PotentialGroups(p: Policy, count: nat): seq<nat> {
    var gs := SelectedGroups(p, count);
    if gs == [] && p.groups == [] && count > 0 then UpTo(count) else gs
  }

  function SortedLoaded(xs: seq<Account>, p: Policy): seq<Account> { SortAccounts(p.sortMode, LoadedOnly(xs)) }

  function CountOf(xs: seq<Account>, ok: Account -> bool): (n: nat)
    ensures n > 0 <==> exists a :: a in xs && ok(a)
  {
    if xs == [] then 0
    else
      assert xs == xs[..|xs| - 1] + [xs[|xs| - 1]];
      CountOf(xs[..|xs| - 1], ok) + (if ok(xs[|xs| - 1]) then 1 else 0)
  }

  lemma {:induction false} CountOfConcat(xs: seq<Account>, ys: seq<Account>, ok: Account -> bool)
    ensures CountOf(xs + ys, ok) == CountOf(xs, ok) + CountOf(ys, ok)
  {
    if ys == [] {
      assert xs + ys == xs;
    } else {
      assert (xs + ys)[..|xs + ys| - 1] == xs + ys[..|ys| - 1];
      CountOfConcat(xs, ys[..|ys| - 1], ok);
    }
  }

  ghost predicate Any(xs: seq<Account>, ok: Account -> bool) { exists a :: a in xs && ok(a) }

  /** When a request can be served: from the selected groups, or, if the caller filters, from any group. */
  ghost predicate Servable(all: seq<Account>, size: nat, groups: seq<nat>, filtered: bool, ok: Account -> bool)
    requires size >= 1
  {
    Any(Members(Cut(all, size), groups), ok) || (filtered && groups != [] && Any(all, ok))
  }

  /** What the two counting functions report over given groups. */
  function Counted(all: seq<Account>, size: nat, groups: seq<nat>, filtered: bool, ok: Account -> bool): (n: nat)
    requires size >= 1
  {
    var here := CountOf(Members(Cut(all, size), groups), ok);
    if here > 0 then here else if filtered && groups != [] then CountOf(all, ok) else 0
  }

  datatype RoutingError = NoAccounts | GroupsExhausted

  datatype Pick = Pick(account: Account, policyApplied: bool, group: nat)

  datatype Acquired = Leased(pick: Pick) | Failed(error: RoutingError)

  /** `a` is in group `g`, is free, and no free member of the group is better. */
  ghost predicate BestOf(members: seq<Account>, a: Account, ask: Ask, free: Account -> bool) {
    a in members && free(a) && forall c :: c in members && free(c) ==> !Better(c, a, ask)
  }

  /** The account taken is one of the members, may serve and is free, and no other such member has a better claim. */
  ghost predicate BestPick(members: seq<Account>, a: Account, ask: Ask, p: Policy, excluded: set<string>,
      leased: set<string>)
  {
    && a in members && MayServe(a, ask, p) && a.token !in excluded && a.token !in leased
    && forall c :: c in members && MayServe(c, ask, p) && c.token !in excluded && c.token !in leased ==>
        Justified(a, c, ask)
  }

  lemma BestOfIsBest(members: seq<Account>, a: Account, ask: Ask, p: Policy, excluded: set<string>,
      leased: set<string>)
    requires BestOf(members, a, ask, FreeAmong(leased, ask, p, excluded))
    ensures BestPick(members, a, ask, p, excluded, leased)
  {
    SuitableIff(a, ask, p);
    forall c | c in members && MayServe(c, ask, p) && c.token !in excluded && c.token !in leased
      ensures Justified(a, c, ask)
    {
      SuitableIff(c, ask, p);
      assert FreeAmong(leased, ask, p, excluded)(c);
      UnbeatenIsJustified(a, c, ask);
    }
  }

  /** `g` is the first of the groups that has a free member. */
  ghost predicate FirstServing(cut: seq<seq<Account>>, groups: seq<nat>, g: nat, free: Account -> bool) {
    exists k :: 0 <= k < |groups| && groups[k] == g && !Any(Members(cut, groups[..k]), free)
  }

  /** Leased tokens, and the request that holds each. */
  type Leases = map<string, nat>

  function Owned(leases: Leases, request: nat): set<string> { set t | t in leases && leases[t] == request }

  function FreeAmong(leased: set<string>, ask: Ask, p: Policy, excluded: set<string>): Account -> bool {
    (a: Account) => Eligible(a, ask, p, excluded, leased)
  }

  function FitFor(ask: Ask, p: Policy): Account -> bool { (a: Account) => Suitable(a, ask, p) }

  /** What an acquisition looks at. */
  datatype View = View(accounts: seq<Account>, leases: Leases)

  function Groups(v: View, p: Policy): seq<nat>
    requires p.groupSize >= 1
  {
    SelectedGroups(p, GroupCount(|SortedLoaded(v.accounts, p)|, p.groupSize))
  }

  /** The request can be served, and this is an account that the policy chooses for it. */
  ghost predicate Grants(v: View, p: Policy, excluded: set<string>, ask: Ask, pick: Pick)
    requires p.groupSize >= 1
  {
    var all, free := SortedLoaded(v.accounts, p), FreeAmong(v.leases.Keys, ask, p, excluded);
    Servable(all, p.groupSize, Groups(v, p), ask.filtered, free) && Chosen(all, Groups(v, p), p, ask, pick, free)
  }

  /** The request cannot be served, and this is the error that says why. */
  ghost predicate Refuses(v: View, p: Policy, excluded: set<string>, ask: Ask, error: RoutingError)
    requires p.groupSize >= 1
  {
    var all, free := SortedLoaded(v.accounts, p), FreeAmong(v.leases.Keys, ask, p, excluded);
    && !Servable(all, p.groupSize, Groups(v, p), ask.filtered, free)
    && error == if all == [] || (Groups(v, p) == [] && p.groups == []) then NoAccounts else GroupsExhausted
  }

  /** The account of a pick has the best claim in its group. */
  ghost predicate PicksBest(v: View, p: Policy, excluded: set<string>, ask: Ask, pick: Pick)
    requires p.groupSize >= 1
  {
    var cut := Cut(SortedLoaded(v.accounts, p), p.groupSize);
    pick.group < |cut| && BestPick(cut[pick.group], pick.account, ask, p, excluded, v.leases.Keys)
  }

  lemma GrantsPickBest(v: View, p: Policy, excluded: set<string>, ask: Ask, pick: Pick)
    requires p.groupSize >= 1 && Grants(v, p, excluded, ask, pick)
    ensures PicksBest(v, p, excluded, ask, pick)
  {
    var cut := Cut(SortedLoaded(v.accounts, p), p.groupSize);
    BestOfIsBest(cut[pick.group], pick.account, ask, p, excluded, v.leases.Keys);
  }

  /** A group is open to a request if it is enabled, or if no enabled group exists. */
  predicate Open(p: Policy, count: nat, g: nat) {
    g in p.groups || (p.groups != [] && forall e :: e in p.groups ==> e >= count)
  }

  /** Some account of the group may serve and is free. */
  ghost predicate HasServer(members: seq<Account>, ask: Ask, p: Policy, excluded: set<string>, leased: set<string>) {
    exists a :: a in members && MayServe(a, ask, p) && a.token !in excluded && a.token !in leased
  }

  lemma {:induction false} InRangeAscends(groups: seq<nat>, count: nat)
    requires Ascending(groups)
    ensures Ascending(InRange(groups, count))
  {
    if groups != [] {
      var n := |groups| - 1;
      InRangeAscends(groups[..n], count);
      var init := InRange(groups[..n], count);
      forall i | 0 <= i < |init| ensures init[i] < groups[n] { assert init[i] in groups[..n]; }
    }
  }

  /** Which groups the two counts and the acquisition look at. */
  lemma SelectedIsOpen(p: Policy, count: nat, g: nat)
    requires Ascending(p.groups) && g < count
    ensures Ascending(SelectedGroups(p, count)) && (g in SelectedGroups(p, count) <==> Open(p, count, g))
    ensures g in PotentialGroups(p, count) <==> Open(p, count, g) || p.groups == []
  {
    InRangeAscends(p.groups, count);
    var gs := InRange(p.groups, count);
    assert gs != [] ==> gs[0] in gs;
    assert UpTo(count)[g] == g;
  }

  lemma FirstServingIsLowest(cut: seq<seq<Account>>, groups: seq<nat>, first: nat, g: nat, free: Account -> bool)
    requires FirstServing(cut, groups, first, free) && Ascending(groups)
    requires g in groups && g < |cut| && Any(cut[g], free)
    ensures first <= g
  {
    var k :| 0 <= k < |groups| && groups[k] == first && !Any(Members(cut, groups[..k]), free);
    var i :| 0 <= i < |groups| && groups[i] == g;
    if i < k {
      assert groups[..k][i] == g;
      AnyMember(cut, groups[..k], g, free);
    }
  }

  /** A group that can serve, and may be asked, has no lower number than the one that was taken. */
  ghost predicate TakesLowest(cut: seq<seq<Account>>, p: Policy, ask: Ask, excluded: set<string>, leased: set<string>,
      pick: Pick)
  {
    forall g :: 0 <= g < |cut| && HasServer(cut[g], ask, p, excluded, leased) ==>
      && (Open(p, |cut|, g) ==> pick.policyApplied && pick.group <= g)
      && (!pick.policyApplied ==> pick.group <= g)
  }

  /** Of the groups that are open to the request, or of all if it falls back, the lowest that can serve is taken. */
  lemma GrantsLowestGroup(v: View, p: Policy, excluded: set<string>, ask: Ask, pick: Pick)
    requires p.groupSize >= 1 && Ascending(p.groups) && Grants(v, p, excluded, ask, pick)
    ensures var cut := Cut(SortedLoaded(v.accounts, p), p.groupSize);
            && (pick.policyApplied ==> Open(p, |cut|, pick.group))
            && TakesLowest(cut, p, ask, excluded, v.leases.Keys, pick)
  {
    var all, free := SortedLoaded(v.accounts, p), FreeAmong(v.leases.Keys, ask, p, excluded);
    CutLength(all, p.groupSize);
    ChosenIsLowest(Cut(all, p.groupSize), Groups(v, p), p, excluded, v.leases.Keys, ask, pick, free);
  }

  lemma {:induction false} ChosenIsLowest(cut: seq<seq<Account>>, groups: seq<nat>, p: Policy, excluded: set<string>,
      leased: set<string>, ask: Ask, pick: Pick, free: Account -> bool)
    requires Ascending(p.groups) && groups == SelectedGroups(p, |cut|) && pick.group < |cut|
    requires pick.policyApplied <==> Any(Members(cut, groups), free)
    requires FirstServing(cut, if pick.policyApplied then groups else UpTo(|cut|), pick.group, free)
    requires free == FreeAmong(leased, ask, p, excluded)
    ensures pick.policyApplied ==> Open(p, |cut|, pick.group)
    ensures TakesLowest(cut, p, ask, excluded, leased, pick)
  {
    SelectedIsOpen(p, |cut|, pick.group);
    forall g: nat | g < |cut| && HasServer(cut[g], ask, p, excluded, leased)
      ensures Open(p, |cut|, g) ==> pick.policyApplied && pick.group <= g
      ensures !pick.policyApplied ==> pick.group <= g
    {
      ServerIsFree(cut[g], ask, p, excluded, leased);
      SelectedIsOpen(p, |cut|, g);
      if Open(p, |cut|, g) { AnyMember(cut, groups, g, free); }
      if pick.policyApplied {
        if Open(p, |cut|, g) { FirstServingIsLowest(cut, groups, pick.group, g, free); }
      } else {
        assert UpTo(|cut|)[g] == g;
        FirstServingIsLowest(cut, UpTo(|cut|), pick.group, g, free);
      }
    }
  }

  /** A group with a free account that may serve, and that the request may be served from. */
  ghost predicate Offers(cut: seq<seq<Account>>, p: Policy, ask: Ask, excluded: set<string>, leased: set<string>,
      g: int)
  {
    && 0 <= g < |cut| && HasServer(cut[g], ask, p, excluded, leased)
    && (Open(p, |cut|, g) || (ask.filtered && p.groups != []))
  }

  /** When a request is served, group by group and field by field; and the error if it is not. */
  lemma ServedIff(v: View, p: Policy, excluded: set<string>, ask: Ask)
    requires p.groupSize >= 1 && Ascending(p.groups)
    ensures var all := SortedLoaded(v.accounts, p);
            Servable(all, p.groupSize, Groups(v, p), ask.filtered, FreeAmong(v.leases.Keys, ask, p, excluded))
            <==> exists g :: Offers(Cut(all, p.groupSize), p, ask, excluded, v.leases.Keys, g)
    ensures forall error :: Refuses(v, p, excluded, ask, error) ==>
              (error == GroupsExhausted <==> p.groups != [] && exists a :: a in v.accounts && Loaded(a))
  {
    var all := SortedLoaded(v.accounts, p);
    CutLength(all, p.groupSize);
    AllGroupsHoldAll(all, p.groupSize);
    LoadedAreSorted(v.accounts, p);
    SelectedIsEmptyIff(p, GroupCount(|all|, p.groupSize));
    OffersIff(Cut(all, p.groupSize), all, Groups(v, p), p, ask, excluded, v.leases.Keys,
              FreeAmong(v.leases.Keys, ask, p, excluded));
  }

  lemma {:induction false} OffersIff(cut: seq<seq<Account>>, all: seq<Account>, groups: seq<nat>, p: Policy, ask: Ask,
      excluded: set<string>, leased: set<string>, free: Account -> bool)
    requires Ascending(p.groups) && groups == SelectedGroups(p, |cut|) && Members(cut, UpTo(|cut|)) == all
    requires free == FreeAmong(leased, ask, p, excluded)
    ensures Any(Members(cut, groups), free) || (ask.filtered && groups != [] && Any(all, free))
            <==> exists g :: Offers(cut, p, ask, excluded, leased, g)
  {
    SelectedIsEmptyIff(p, |cut|);
    if Any(Members(cut, groups), free) {
      ServedIsOffered(cut, groups, groups, p, ask, excluded, leased, free);
    } else if ask.filtered && groups != [] && Any(all, free) {
      ServedIsOffered(cut, UpTo(|cut|), groups, p, ask, excluded, leased, free);
    }
    forall g | Offers(cut, p, ask, excluded, leased, g)
      ensures Any(Members(cut, groups), free) || (ask.filtered && groups != [] && Any(all, free))
    {
      ServerIsFree(cut[g], ask, p, excluded, leased);
      SelectedIsOpen(p, |cut|, g);
      assert UpTo(|cut|)[g] == g;
      if Open(p, |cut|, g) { AnyMember(cut, groups, g, free); } else { AnyMember(cut, UpTo(|cut|), g, free); }
    }
  }

  lemma {:induction false} ServedIsOffered(cut: seq<seq<Account>>, gs: seq<nat>, groups: seq<nat>, p: Policy, ask: Ask,
      excluded: set<string>, leased: set<string>, free: Account -> bool)
    requires Ascending(p.groups) && groups == SelectedGroups(p, |cut|) && Any(Members(cut, gs), free)
    requires gs == groups || (ask.filtered && p.groups != [])
    requires free == FreeAmong(leased, ask, p, excluded)
    ensures exists g :: Offers(cut, p, ask, excluded, leased, g)
  {
    var g := ServingGroup(cut, gs, free);
    SelectedIsOpen(p, |cut|, g);
    FreeIsServer(cut[g], ask, p, excluded, leased);
    assert Offers(cut, p, ask, excluded, leased, g);
  }

  lemma SelectedIsEmptyIff(p: Policy, count: nat)
    ensures SelectedGroups(p, count) == [] <==> p.groups == [] || count == 0
  {
    if InRange(p.groups, count) != [] { assert InRange(p.groups, count)[0] in p.groups; }
  }

  lemma LoadedAreSorted(accounts: seq<Account>, p: Policy)
    ensures SortedLoaded(accounts, p) == [] <==> forall a :: a in accounts ==> !Loaded(a)
  {
    var loaded := LoadedOnly(accounts);
    assert |multiset(SortedLoaded(accounts, p))| == |multiset(loaded)|;
    if loaded != [] { assert loaded[0] in accounts; }
  }

  lemma ServingGroup(cut: seq<seq<Account>>, groups: seq<nat>, free: Account -> bool)
    returns (g: nat)
    requires Any(Members(cut, groups), free)
    ensures g in groups && g < |cut| && Any(cut[g], free)
    decreases |groups|
  {
    var n := |groups| - 1;
    var a: Account :| a in Members(cut, groups) && free(a);
    if groups[n] < |cut| && a in cut[groups[n]] { g := groups[n]; } else { g := ServingGroup(cut, groups[..n], free); }
  }

  lemma FreeIsServer(members: seq<Account>, ask: Ask, p: Policy, excluded: set<string>, leased: set<string>)
    requires Any(members, FreeAmong(leased, ask, p, excluded))
    ensures HasServer(members, ask, p, excluded, leased)
  {
    var a: Account :| a in members && FreeAmong(leased, ask, p, excluded)(a);
    SuitableIff(a, ask, p);
  }

  lemma ServerIsFree(members: seq<Account>, ask: Ask, p: Policy, excluded: set<string>, leased: set<string>)
    requires HasServer(members, ask, p, excluded, leased)
    ensures Any(members, FreeAmong(leased, ask, p, excluded))
  {
    var a: Account :| a in members && MayServe(a, ask, p) && a.token !in excluded && a.token !in leased;
    SuitableIff(a, ask, p);
    assert FreeAmong(leased, ask, p, excluded)(a);
  }

  lemma {:induction false} AnyMember(cut: seq<seq<Account>>, groups: seq<nat>, g: nat, free: Account -> bool)
    requires g in groups && g < |cut| && Any(cut[g], free)
    ensures Any(Members(cut, groups), free)
    decreases |groups|
  {
    var n := |groups| - 1;
    var here := if groups[n] < |cut| then cut[groups[n]] else [];
    assert Members(cut, groups) == Members(cut, groups[..n]) + here;
    if groups[n] == g {
      var a: Account :| a in cut[g] && free(a);
      assert a in Members(cut, groups);
    } else {
      assert g in groups[..n];
      AnyMember(cut, groups[..n], g, free);
      var a: Account :| a in Members(cut, groups[..n]) && free(a);
      assert a in Members(cut, groups);
    }
  }

  /** The account store, as far as routing goes: the accounts on file and the leases handed out. */
  class Store {
    var accounts: seq<Account>
    var leases: Leases

    constructor (accounts: seq<Account>)
      ensures this.accounts == accounts && leases == map[]
    {
      this.accounts, leases := accounts, map[];
    }

    function Free(ask: Ask, p: Policy, excluded: set<string>): Account -> bool
      reads this
    {
      FreeAmong(leases.Keys, ask, p, excluded)
    }

    function Seen(): View
      reads this
    {
      View(accounts, leases)
    }

    /** `acquireImageLeaseLocked`: one lease per token. */
    method AcquireLease(token: string, request: nat) returns (ok: bool)
      modifies `leases
      ensures ok <==> token != "" && token !in old(leases)
      ensures leases == if ok then old(leases)[token := request] else old(leases)
    {
      ok := token != "" && token !in leases;
      if ok { leases := leases[token := request]; }
    }

    method ReleaseLease(token: string)
      modifies `leases
      ensures leases == old(leases) - {token}
    {
      leases := leases - {token};
    }

    /** The slices the program takes of the sorted accounts. */
    method CutGroups(all: seq<Account>, size: nat) returns (cut: seq<seq<Account>>)
      requires size >= 1
      ensures cut == Cut(all, size)
    {
      cut := [];
      CutLength(all, size);
      var count := GroupCount(|all|, size);
      for g := 0 to count
        invariant cut == Cut(all, size)[..g]
      {
        CutByIndex(all, size, g);
        cut := cut + [all[g * size..Min(|all|, g * size + size)]];
      }
    }

    /** The filter loop over one group's members. */
    method Candidates(members: seq<Account>, p: Policy, excluded: set<string>, ask: Ask) returns (cs: seq<Account>)
      ensures forall a :: a in cs <==> a in members && Free(ask, p, excluded)(a)
    {
      cs := [];
      for k := 0 to |members|
        invariant forall a :: a in cs <==> a in members[..k] && Free(ask, p, excluded)(a)
      {
        var a := members[k];
        assert members[..k + 1] == members[..k] + [a];
        if ask.filtered && !ask.allow(a) { continue; }
        if a.token in excluded { continue; }
        if a.token in leases { continue; }
        if a.authDisabled && !ask.allowDisabled { continue; }
        if a.status == Disabled && !ask.allowDisabled { continue; }
        if a.status == Abnormal { continue; }
        if !Ready(a, ask) && !a.refreshNeeded { continue; }
        if Ready(a, ask) && !AboveReserve(a, p) { continue; }
        cs := cs + [a];
      }
      assert members[..|members|] == members;
    }

    /**
     `selectImageRoutingCandidateFromGroups`: the first group with an eligible member decides, and no
     eligible member of it is better than the one taken.
     */
    method SelectFromGroups(cut: seq<seq<Account>>, groups: seq<nat>, p: Policy, excluded: set<string>, ask: Ask,
        request: nat)
      returns (picked: Option<Pick>)
      requires forall g, a :: 0 <= g < |cut| && a in cut[g] ==> a.token != ""
      modifies `leases
      ensures picked.Some? <==> Any(Members(cut, groups), old(Free(ask, p, excluded)))
      ensures picked.None? ==> leases == old(leases)
      ensures picked.Some? ==>
                && picked.value.group < |cut| && picked.value.policyApplied
                && BestPick(cut[picked.value.group], picked.value.account, ask, p, excluded, old(leases).Keys)
                && BestOf(cut[picked.value.group], picked.value.account, ask, old(Free(ask, p, excluded)))
                && FirstServing(cut, groups, picked.value.group, old(Free(ask, p, excluded)))
                && leases == old(leases)[picked.value.account.token := request]
    {
      ghost var free := Free(ask, p, excluded);
      for k := 0 to |groups|
        invariant leases == old(leases)
        invariant !Any(Members(cut, groups[..k]), free)
      {
        assert groups[..k + 1][..k] == groups[..k];
        if groups[k] >= |cut| { continue; }
        var candidates := Candidates(cut[groups[k]], p, excluded, ask);
        if candidates == [] { continue; }
        var best := Best(candidates, ask);
        var ok := AcquireLease(best.token, request);
        picked := Some(Pick(best, true, groups[k]));
        ghost var rest := Members(cut, groups[..k + 1]);
        assert best in rest;
        MembersPrefix(cut, groups, k + 1);
        BestOfIsBest(cut[groups[k]], best, ask, p, excluded, old(leases).Keys);
        return;
      }
      assert groups[..|groups|] == groups;
      picked := None;
    }

    /** The head of the sorted candidates: the order among equals is left open. */
    method Best(candidates: seq<Account>, ask: Ask) returns (best: Account)
      requires candidates != []
      ensures best in candidates && Unbeaten(best, candidates, ask)
      ensures forall c :: c in candidates ==> Justified(best, c, ask)
    {
      BestExists(candidates, ask);
      best :| best in candidates && Unbeaten(best, candidates, ask);
      forall c | c in candidates ensures Justified(best, c, ask) { UnbeatenIsJustified(best, c, ask); }
    }

    /** `acquireImageAuthWithPolicyLease` for an enabled policy. */
    method Acquire(p: Policy, excluded: set<string>, ask: Ask, request: nat) returns (r: Acquired)
      requires p.groupSize >= 1
      modifies `leases
      ensures r.Leased? ==> Grants(old(Seen()), p, excluded, ask, r.pick)
      ensures r.Leased? ==> PicksBest(old(Seen()), p, excluded, ask, r.pick)
      ensures r.Leased? ==>
              r.pick.account.token !in old(leases) && leases == old(leases)[r.pick.account.token := request]
      ensures r.Failed? ==> Refuses(old(Seen()), p, excluded, ask, r.error) && leases == old(leases)
    {
      var all := SortedLoaded(accounts, p);
      if all == [] {
        NothingToServe(p, ask.filtered, Free(ask, p, excluded));
        return Failed(NoAccounts);
      }
      var count := GroupCount(|all|, p.groupSize);
      var cut := CutGroups(all, p.groupSize);
      CutLength(all, p.groupSize);
      AllGroupsHoldAll(all, p.groupSize);
      TokensPresent(accounts, p);
      var groups := SelectedGroups(p, count);
      var picked := SelectFromGroups(cut, groups, p, excluded, ask, request);
      if picked.Some? { return Leased(picked.value); }
      if ask.filtered && groups != [] {
        picked := SelectFromGroups(cut, UpTo(count), p, excluded, ask, request);
        if picked.Some? { return Leased(picked.value.(policyApplied := false)); }
      }
      r := Failed(if groups != [] || p.groups != [] then GroupsExhausted else NoAccounts);
    }

    /** The filter loop of the counting functions; the potential count skips the lease check. */
    method CountGroup(members: seq<Account>, p: Policy, ask: Ask, potential: bool) returns (n: nat)
      ensures n == CountOf(members, if potential then FitFor(ask, p) else Free(ask, p, {}))
    {
      n := 0;
      for k := 0 to |members|
        invariant n == CountOf(members[..k], if potential then FitFor(ask, p) else Free(ask, p, {}))
      {
        var a := members[k];
        assert members[..k + 1][..k] == members[..k];
        if ask.filtered && !ask.allow(a) { continue; }
        if !potential && a.token in leases { continue; }
        if a.authDisabled && !ask.allowDisabled { continue; }
        if a.status == Disabled && !ask.allowDisabled { continue; }
        if a.status == Abnormal { continue; }
        if !Ready(a, ask) && !a.refreshNeeded { continue; }
        if Ready(a, ask) && !AboveReserve(a, p) { continue; }
        n := n + 1;
      }
      assert members[..|members|] == members;
    }

    method CountFromGroups(cut: seq<seq<Account>>, groups: seq<nat>, p: Policy, ask: Ask, potential: bool)
      returns (n: nat)
      ensures n == CountOf(Members(cut, groups), if potential then FitFor(ask, p) else Free(ask, p, {}))
    {
      n := 0;
      for k := 0 to |groups|
        invariant n == CountOf(Members(cut, groups[..k]), if potential then FitFor(ask, p) else Free(ask, p, {}))
      {
        assert groups[..k + 1][..k] == groups[..k];
        if groups[k] >= |cut| {
          assert Members(cut, groups[..k + 1]) == Members(cut, groups[..k]);
          continue;
        }
        var m := CountGroup(cut[groups[k]], p, ask, potential);
        CountOfConcat(Members(cut, groups[..k]), cut[groups[k]],
                      if potential then FitFor(ask, p) else Free(ask, p, {}));
        n := n + m;
      }
      assert groups[..|groups|] == groups;
    }

    /** Over the selected groups, or, if they hold nothing for a caller that filters, over all groups. */
    method CountWithFallback(all: seq<Account>, groups: seq<nat>, p: Policy, ask: Ask, potential: bool) returns (n: nat)
      requires p.groupSize >= 1
      ensures n == Counted(all, p.groupSize, groups, ask.filtered,
                           if potential then FitFor(ask, p) else Free(ask, p, {}))
    {
      var cut := CutGroups(all, p.groupSize);
      n := CountFromGroups(cut, groups, p, ask, potential);
      if n == 0 && ask.filtered && groups != [] {
        AllGroupsHoldAll(all, p.groupSize);
        CutLength(all, p.groupSize);
        n := CountFromGroups(cut, UpTo(GroupCount(|all|, p.groupSize)), p, ask, potential);
      }
    }

    /** The two policy counting functions. */
    method Count(p: Policy, ask: Ask, potential: bool) returns (n: nat)
      requires p.groupSize >= 1
      ensures var all := SortedLoaded(accounts, p);
              var count := GroupCount(|all|, p.groupSize);
              n == Counted(all, p.groupSize, if potential then PotentialGroups(p, count) else SelectedGroups(p, count),
                           ask.filtered, if potential then FitFor(ask, p) else Free(ask, p, {}))
    {
      var all := SortedLoaded(accounts, p);
      if all == [] {
        NoMembers(SelectedGroups(p, GroupCount(0, p.groupSize)));
        NoMembers(PotentialGroups(p, GroupCount(0, p.groupSize)));
        return 0;
      }
      var count := GroupCount(|all|, p.groupSize);
      var groups := if potential then PotentialGroups(p, count) else SelectedGroups(p, count);
      n := CountWithFallback(all, groups, p, ask, potential);
    }
  }

  /** Counting before acquiring predicts the outcome. */
  method CountThenAcquire(store: Store, p: Policy, ask: Ask, request: nat) returns (n: nat, r: Acquired)
    requires p.groupSize >= 1
    modifies store`leases
    ensures r.Leased? <==> n > 0
  {
    ghost var all := SortedLoaded(store.accounts, p);
    ServableIffCounted(all, p.groupSize, Groups(store.Seen(), p), ask.filtered, store.Free(ask, p, {}));
    n := store.Count(p, ask, false);
    r := store.Acquire(p, {}, ask, request);
  }

  /**
   The two counts of one store, side by side: available accounts are potential ones, but the available
   count is the larger one exactly when it alone falls back to all groups and finds more there.
   */
  method CountBoth(store: Store, p: Policy, ask: Ask) returns (available: nat, potential: nat)
    requires p.groupSize >= 1
    ensures available > 0 ==> potential > 0
    ensures var all, groups := SortedLoaded(store.accounts, p), Groups(store.Seen(), p);
            var here := Members(Cut(all, p.groupSize), groups);
            available > potential
            <==> && ask.filtered && groups != [] && CountOf(here, store.Free(ask, p, {})) == 0
                 && 0 < CountOf(here, FitFor(ask, p)) < CountOf(all, store.Free(ask, p, {}))
  {
    ghost var all := SortedLoaded(store.accounts, p);
    available := store.Count(p, ask, false);
    potential := store.Count(p, ask, true);
    if available > 0 { AvailableImpliesPotential(all, p, ask.filtered, store.Free(ask, p, {}), FitFor(ask, p)); }
    AvailableExceedsPotentialIff(all, p, ask.filtered, store.Free(ask, p, {}), FitFor(ask, p));
  }

  /** What `Acquire` promises about the account it leased. */
  ghost predicate Chosen(all: seq<Account>, groups: seq<nat>, p: Policy, ask: Ask, pick: Pick, free: Account -> bool)
    requires p.groupSize >= 1
  {
    var cut := Cut(all, p.groupSize);
    && pick.group < |cut| && BestOf(cut[pick.group], pick.account, ask, free)
    && (pick.policyApplied <==> Any(Members(cut, groups), free))
    && FirstServing(cut, if pick.policyApplied then groups else UpTo(|cut|), pick.group, free)
  }

  lemma NothingToServe(p: Policy, filtered: bool, ok: Account -> bool)
    requires p.groupSize >= 1
    ensures !Servable([], p.groupSize, SelectedGroups(p, GroupCount(0, p.groupSize)), filtered, ok)
  {
    NoMembers(SelectedGroups(p, GroupCount(0, p.groupSize)));
  }

  lemma {:induction false} NoMembers(groups: seq<nat>)
    ensures Members([], groups) == []
  {
    if groups != [] { NoMembers(groups[..|groups| - 1]); }
  }

  lemma {:induction false} CutMembers(xs: seq<Account>, size: nat)
    requires size >= 1
    ensures forall g, a :: 0 <= g < |Cut(xs, size)| && a in Cut(xs, size)[g] ==> a in xs
    decreases |xs|
  {
    if |xs| > size {
      CutMembers(xs[size..], size);
      forall g, a | 0 <= g < |Cut(xs, size)| && a in Cut(xs, size)[g] ensures a in xs {
        if g > 0 {
          assert Cut(xs, size)[g] == Cut(xs[size..], size)[g - 1];
          assert a in xs[size..];
        }
      }
    }
  }

  /** Only accounts with a token are routed to. */
  lemma TokensPresent(accounts: seq<Account>, p: Policy)
    requires p.groupSize >= 1
    ensures var cut := Cut(SortedLoaded(accounts, p), p.groupSize);
            forall g, a :: 0 <= g < |cut| && a in cut[g] ==> a.token != ""
  {
    var all := SortedLoaded(accounts, p);
    CutMembers(all, p.groupSize);
    forall a | a in all ensures a.token != "" {
      assert a in multiset(all);
      assert a in LoadedOnly(accounts);
    }
  }

  // --------------------------------------------------------------------------------------------
  // The counts and the acquisition agree

  /** A request with nothing excluded is served if and only if the available count is positive. */
  lemma ServableIffCounted(all: seq<Account>, size: nat, groups: seq<nat>, filtered: bool, ok: Account -> bool)
    requires size >= 1
    ensures Servable(all, size, groups, filtered, ok) <==> Counted(all, size, groups, filtered, ok) > 0
  {
  }

  /** An available account is a potential one, although the two counts may look at different groups. */
  lemma AvailableImpliesPotential(all: seq<Account>, p: Policy, filtered: bool, free: Account -> bool,
      fit: Account -> bool)
    requires p.groupSize >= 1 && forall a :: free(a) ==> fit(a)
    requires Counted(all, p.groupSize, SelectedGroups(p, GroupCount(|all|, p.groupSize)), filtered, free) > 0
    ensures Counted(all, p.groupSize, PotentialGroups(p, GroupCount(|all|, p.groupSize)), filtered, fit) > 0
  {
    var groups := SelectedGroups(p, GroupCount(|all|, p.groupSize));
    ServableIffCounted(all, p.groupSize, groups, filtered, free);
    assert Members(Cut(all, p.groupSize), []) == [];
  }

  lemma {:induction false} CountOfMore(xs: seq<Account>, free: Account -> bool, fit: Account -> bool)
    requires forall a :: free(a) ==> fit(a)
    ensures CountOf(xs, free) <= CountOf(xs, fit)
  {
    if xs != [] { CountOfMore(xs[..|xs| - 1], free, fit); }
  }

  /**
   The available count exceeds the potential one exactly when only the former falls back to all
   groups and finds more there.
   */
  lemma {:induction false} AvailableExceedsPotentialIff(all: seq<Account>, p: Policy, filtered: bool,
      free: Account -> bool, fit: Account -> bool)
    requires p.groupSize >= 1 && forall a :: free(a) ==> fit(a)
    ensures var count := GroupCount(|all|, p.groupSize);
            var groups := SelectedGroups(p, count);
            var here := Members(Cut(all, p.groupSize), groups);
            Counted(all, p.groupSize, groups, filtered, free) > Counted(all, p.groupSize, PotentialGroups(p, count),
                filtered, fit)
            <==> filtered && groups != [] && CountOf(here, free) == 0 && 0 < CountOf(here, fit) < CountOf(all, free)
  {
    var groups := SelectedGroups(p, GroupCount(|all|, p.groupSize));
    var here := Members(Cut(all, p.groupSize), groups);
    CountOfMore(here, free, fit);
    CountOfMore(all, free, fit);
    assert Members(Cut(all, p.groupSize), []) == [];
  }

  lemma CutOfThree(a: Account, b: Account, c: Account)
    ensures Cut([a, b, c], 1) == [[a], [b], [c]]
  {
    assert [a, b, c][1..] == [b, c] && [b, c][1..] == [c];
    assert [a, b, c][..1] == [a] && [b, c][..1] == [b];
    assert Cut([b, c], 1) == [[b]] + Cut([c], 1);
    assert Cut([a, b, c], 1) == [[a]] + Cut([b, c], 1);
  }

  lemma CountOfOne(a: Account, ok: Account -> bool)
    ensures CountOf([a], ok) == if ok(a) then 1 else 0
  {
    assert [a][..0] == [];
  }

  lemma CountOfThree(a: Account, b: Account, c: Account, ok: Account -> bool)
    ensures CountOf([a, b, c], ok) == (if ok(a) then 1 else 0) + (if ok(b) then 1 else 0) + (if ok(c) then 1 else 0)
  {
    assert [a, b, c][..2] == [a, b] && [a, b][..1] == [a];
    CountOfOne(a, ok);
  }

  const FIRST_ONLY := Policy(ByImport, 1, [0], false, 0)

  /** Three loaded accounts, imported one after another. */
  predicate InOrder(a: Account, b: Account, c: Account) {
    && Loaded(a) && Loaded(b) && Loaded(c) && a.name != b.name && a.name != c.name && b.name != c.name
    && a.importedAt.Some? && b.importedAt.Some? && c.importedAt.Some?
    && a.importedAt.value < b.importedAt.value < c.importedAt.value
  }

  lemma ThreeInOrder(a: Account, b: Account, c: Account)
    requires InOrder(a, b, c)
    ensures Sorted(ByImport, [a, b, c]) && DistinctNames([a, b, c])
  {
    assert Before(ByImport, a, b) && Before(ByImport, a, c) && Before(ByImport, b, c);
  }

  lemma ThreeAreSorted(a: Account, b: Account, c: Account)
    requires InOrder(a, b, c)
    ensures SortedLoaded([a, b, c], FIRST_ONLY) == [a, b, c]
  {
    var xs := [a, b, c];
    LoadedOnlyOfLoaded(xs);
    ThreeInOrder(a, b, c);
    SortIsSorted(ByImport, xs);
    SortedIsUnique(ByImport, SortAccounts(ByImport, xs), xs);
  }

  lemma {:induction false} LoadedOnlyOfLoaded(xs: seq<Account>)
    requires forall k :: 0 <= k < |xs| ==> Loaded(xs[k])
    ensures LoadedOnly(xs) == xs
  {
    if xs != [] {
      var n := |xs| - 1;
      LoadedOnlyOfLoaded(xs[..n]);
      assert xs == xs[..n] + [xs[n]];
      LoadedOnlyMore(xs[..n], xs[n]);
    }
  }

  lemma {:induction false} LoadedOnlyMore(xs: seq<Account>, a: Account)
    requires Loaded(a)
    ensures LoadedOnly(xs + [a]) == LoadedOnly(xs) + [a]
  {
    assert (xs + [a])[..|xs|] == xs;
  }

  lemma CountsOfThree(a: Account, b: Account, c: Account, free: Account -> bool, fit: Account -> bool)
    requires !free(a) && free(b) && free(c) && fit(a)
    ensures Counted([a, b, c], 1, [0], true, free) == 2 && Counted([a, b, c], 1, [0], true, fit) == 1
  {
    CutOfThree(a, b, c);
    assert Members([[a], [b], [c]], [0]) == [a] by { assert [0][..0] == []; }
    CountOfOne(a, free);
    CountOfOne(a, fit);
    CountOfThree(a, b, c, free);
  }

  lemma FirstGroupOnly()
    ensures SelectedGroups(FIRST_ONLY, 3) == PotentialGroups(FIRST_ONLY, 3) == [0]
  {
    assert [0][..0] == [] && InRange([], 3) == [];
  }

  lemma StoreOfThree(a: Account, b: Account, c: Account, free: Account -> bool, fit: Account -> bool)
    requires InOrder(a, b, c) && !free(a) && free(b) && free(c) && fit(a)
    ensures SortedLoaded([a, b, c], FIRST_ONLY) == [a, b, c] && GroupCount(3, 1) == 3
    ensures Counted([a, b, c], 1, SelectedGroups(FIRST_ONLY, 3), true, free) == 2
    ensures Counted([a, b, c], 1, PotentialGroups(FIRST_ONLY, 3), true, fit) == 1
  {
    ThreeAreSorted(a, b, c);
    FirstGroupOnly();
    CountsOfThree(a, b, c, free, fit);
  }

  lemma FreeUnlessLeased(a: Account, ask: Ask, leased: set<string>)
    requires Suitable(a, ask, FIRST_ONLY)
    ensures FreeAmong(leased, ask, FIRST_ONLY, {})(a) <==> a.token !in leased
    ensures FitFor(ask, FIRST_ONLY)(a)
  {
  }

  /**
   It happens to any three suitable accounts in groups of one, the first group enabled and its account
   leased, when the caller filters: two accounts are available and one is potential.
   */
  method AvailableCanExceedPotential(a: Account, b: Account, c: Account, ask: Ask)
    returns (available: nat, potential: nat)
    requires InOrder(a, b, c) && a.token !in {b.token, c.token} && ask.filtered
    requires Suitable(a, ask, FIRST_ONLY) && Suitable(b, ask, FIRST_ONLY) && Suitable(c, ask, FIRST_ONLY)
    ensures available == 2 && potential == 1
  {
    var store := new Store([a, b, c]);
    var ok := store.AcquireLease(a.token, 0);
    assert store.leases.Keys == {a.token};
    ghost var free, fit := store.Free(ask, FIRST_ONLY, {}), FitFor(ask, FIRST_ONLY);
    assert !free(a) && free(b) && free(c) && fit(a) by {
      FreeUnlessLeased(a, ask, {a.token});
      FreeUnlessLeased(b, ask, {a.token});
      FreeUnlessLeased(c, ask, {a.token});
    }
    StoreOfThree(a, b, c, free, fit);
    available := store.Count(FIRST_ONLY, ask, false);
    potential := store.Count(FIRST_ONLY, ask, true);
  }

  lemma {:induction false} MembersPrefix(cut: seq<seq<Account>>, groups: seq<nat>, k: nat)
    requires k <= |groups|
    ensures Members(cut, groups[..k]) <= Members(cut, groups)
    decreases |groups|
  {
    if k == |groups| {
      assert groups[..k] == groups;
    } else {
      var init := groups[..|groups| - 1];
      assert init[..k] == groups[..k];
      MembersPrefix(cut, init, k);
    }
  }
}
