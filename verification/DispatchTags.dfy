/**
 The tags that steer an image job to a provider: tags of the request, tags of the user, how the two
 are merged when a job is submitted, and what becomes of them when the stored job is queued again.
 */
module DispatchTags {
  import opened Basics
  import opened Text

  // --------------------------------------------------------------------------------------------
  // Lists of tags

  function Normal(raw: string): string { Lower(Trim(raw)) }

  lemma {:induction false} LowerKeepsTrimmed(s: string)
    requires Trimmed(s)
    ensures Trimmed(Lower(s))
  {
  }

  lemma NormalIsStable(raw: string)
    ensures Normal(Normal(raw)) == Normal(raw)
  {
    TrimIsTrimmed(raw);
    LowerKeepsTrimmed(Trim(raw));
    TrimIsTrimmed(Lower(Trim(raw)));
    LowerLower(Trim(raw));
  }

  /** The three kinds of tag that speak for a user's level and role. */
  predicate IsUserTag(tag: string) { "tier:" <= tag || "wallet:" <= tag || "role:" <= tag }

  predicate IsNormal(tag: string) { tag != "" && Normal(tag) == tag }

  function Clean(raws: seq<string>): (tags: seq<string>)
    ensures |tags| <= |raws|
  {
    if raws == [] then [] else (if Normal(raws[0]) == "" then [] else [Normal(raws[0])]) + Clean(raws[1..])
  }

  function Minus(tags: seq<string>, gone: set<string>): (rest: seq<string>)
    ensures |rest| <= |tags|
    ensures forall t :: t in rest <==> t in tags && t !in gone
  {
    if tags == [] then []
    else
      assert tags == [tags[0]] + tags[1..];
      (if tags[0] in gone then [] else [tags[0]]) + Minus(tags[1..], gone)
  }

  /** The tags of one kind, in their order. */
  function Keep(tags: seq<string>, user: bool): (kept: seq<string>)
    ensures forall t :: t in kept <==> t in tags && IsUserTag(t) == user
  {
    if tags == [] then []
    else
      assert tags == [tags[0]] + tags[1..];
      (if IsUserTag(tags[0]) == user then [tags[0]] else []) + Keep(tags[1..], user)
  }

  /** Every element once, at its first occurrence. */
  function Dedup(tags: seq<string>): (once: seq<string>)
    ensures forall t :: t in once <==> t in tags
    decreases |tags|
  {
    if tags == [] then []
    else
      assert tags == [tags[0]] + tags[1..];
      [tags[0]] + Dedup(Minus(tags[1..], {tags[0]}))
  }

  function Merge(raws: seq<string>): seq<string> { Dedup(Clean(raws)) }

  predicate Proper(tags: seq<string>) { Distinct(tags) && forall t :: t in tags ==> IsNormal(t) }

  // --------------------------------------------------------------------------------------------
  // Laws of these lists

  lemma {:induction false} KeepCons(t: string, rest: seq<string>, user: bool)
    ensures Keep([t] + rest, user) == (if IsUserTag(t) == user then [t] else []) + Keep(rest, user)
  {
    assert ([t] + rest)[1..] == rest;
  }

  lemma {:induction false} DedupCons(t: string, rest: seq<string>)
    ensures Dedup([t] + rest) == [t] + Dedup(Minus(rest, {t}))
  {
    assert ([t] + rest)[1..] == rest;
  }

  lemma {:induction false} MinusCons(t: string, rest: seq<string>, gone: set<string>)
    ensures Minus([t] + rest, gone) == (if t in gone then [] else [t]) + Minus(rest, gone)
  {
    assert ([t] + rest)[1..] == rest;
  }

  lemma {:induction false} MinusTwice(tags: seq<string>, a: set<string>, b: set<string>)
    ensures Minus(Minus(tags, a), b) == Minus(tags, a + b)
  {
    if tags != [] {
      MinusTwice(tags[1..], a, b);
      var rest := Minus(tags[1..], a);
      if tags[0] !in a { MinusCons(tags[0], rest, b); } else { assert [] + rest == rest; }
    }
  }

  lemma {:induction false} MinusFirst(tags: seq<string>, gone: set<string>)
    requires tags != []
    ensures Minus(tags, gone) == (if tags[0] in gone then [] else [tags[0]]) + Minus(tags[1..], gone)
  {
  }

  lemma {:induction false} MinusNothing(tags: seq<string>, gone: set<string>)
    requires forall t :: t in tags ==> t !in gone
    ensures Minus(tags, gone) == tags
  {
    if tags != [] {
      assert forall t :: t in tags[1..] ==> t in tags;
      assert tags[0] in tags && tags == [tags[0]] + tags[1..];
      MinusFirst(tags, gone);
      MinusNothing(tags[1..], gone);
    }
  }

  lemma {:induction false} MinusKeepsDistinct(tags: seq<string>, gone: set<string>)
    requires Distinct(tags)
    ensures Distinct(Minus(tags, gone))
  {
    if tags != [] {
      MinusKeepsDistinct(tags[1..], gone);
      assert tags[0] !in tags[1..];
    }
  }

  lemma {:induction false} KeepKeepsDistinct(tags: seq<string>, user: bool)
    requires Distinct(tags)
    ensures Distinct(Keep(tags, user))
  {
    if tags != [] {
      KeepKeepsDistinct(tags[1..], user);
      assert tags[0] !in tags[1..];
    }
  }

  lemma {:induction false} KeepMinus(tags: seq<string>, gone: set<string>, user: bool)
    ensures Keep(Minus(tags, gone), user) == Minus(Keep(tags, user), gone)
  {
    if tags != [] {
      KeepMinus(tags[1..], gone, user);
      var t, fewer, kept := tags[0], Minus(tags[1..], gone), Keep(tags[1..], user);
      KeepCons(t, fewer, user);
      MinusCons(t, kept, gone);
      assert [] + fewer == fewer && [] + kept == kept;
      assert [] + Keep(fewer, user) == Keep(fewer, user) && [] + Minus(kept, gone) == Minus(kept, gone);
    }
  }

  /** Choosing a kind of tag and dropping repetitions can be done in either order. */
  lemma {:induction false} KeepDedup(tags: seq<string>, user: bool)
    ensures Keep(Dedup(tags), user) == Dedup(Keep(tags, user))
    decreases |tags|
  {
    if tags != [] {
      var t, rest := tags[0], Minus(tags[1..], {tags[0]});
      KeepDedup(rest, user);
      KeepCons(t, Dedup(rest), user);
      KeepMinus(tags[1..], {t}, user);
      if IsUserTag(t) == user {
        DedupCons(t, Keep(tags[1..], user));
      } else {
        MinusNothing(Keep(tags[1..], user), {t});
        assert [] + Keep(Dedup(rest), user) == Keep(Dedup(rest), user);
        assert [] + Keep(tags[1..], user) == Keep(tags[1..], user);
      }
    }
  }

  lemma TailIsDistinct(tags: seq<string>)
    requires Distinct(tags) && tags != []
    ensures Distinct(tags[1..]) && tags[0] !in tags[1..] && tags == [tags[0]] + tags[1..]
  {
  }

  lemma ConsIsDistinct(t: string, rest: seq<string>)
    requires Distinct(rest) && t !in rest
    ensures Distinct([t] + rest)
  {
  }

  lemma {:induction false} DedupIsDistinct(tags: seq<string>)
    ensures Distinct(Dedup(tags))
    ensures Distinct(tags) ==> Dedup(tags) == tags
    decreases |tags|
  {
    if tags != [] {
      var rest := Minus(tags[1..], {tags[0]});
      DedupIsDistinct(rest);
      ConsIsDistinct(tags[0], Dedup(rest));
      if Distinct(tags) {
        TailIsDistinct(tags);
        MinusNothing(tags[1..], {tags[0]});
      }
    }
  }

  lemma {:induction false} MinusConcat(a: seq<string>, b: seq<string>, gone: set<string>)
    ensures Minus(a + b, gone) == Minus(a, gone) + Minus(b, gone)
  {
    if a == [] {
      assert a + b == b;
    } else {
      assert (a + b)[1..] == a[1..] + b;
      MinusConcat(a[1..], b, gone);
    }
  }

  lemma ToSetCons(t: string, rest: seq<string>)
    ensures ToSet([t] + rest) == {t} + ToSet(rest)
  {
  }

  /** Merging a list that has no repetitions with another one appends what is new. */
  lemma {:induction false} DedupConcat(a: seq<string>, b: seq<string>)
    requires Distinct(a) && Distinct(b)
    ensures Dedup(a + b) == a + Minus(b, ToSet(a))
    decreases |a|
  {
    if a == [] {
      assert a + b == b;
      DedupIsDistinct(b);
      MinusNothing(b, ToSet(a));
    } else {
      var t, rest, fewer := a[0], a[1..], Minus(b, {a[0]});
      TailIsDistinct(a);
      MinusKeepsDistinct(b, {t});
      DedupConcat(rest, fewer);
      DedupConcatStep(t, rest, b);
      Reassociate([t], rest, Minus(fewer, ToSet(rest)));
    }
  }

  lemma {:induction false} DedupConcatStep(t: string, rest: seq<string>, b: seq<string>)
    requires t !in rest
    ensures Dedup([t] + rest + b) == [t] + Dedup(rest + Minus(b, {t}))
    ensures Minus(Minus(b, {t}), ToSet(rest)) == Minus(b, ToSet([t] + rest))
  {
    Reassociate([t], rest, b);
    DedupCons(t, rest + b);
    MinusConcat(rest, b, {t});
    MinusNothing(rest, {t});
    MinusTwice(b, {t}, ToSet(rest));
    ToSetCons(t, rest);
  }

  lemma {:induction false} CleanIsNormal(raws: seq<string>)
    ensures forall t :: t in Clean(raws) ==> IsNormal(t)
  {
    if raws != [] {
      CleanIsNormal(raws[1..]);
      NormalIsStable(raws[0]);
    }
  }

  lemma {:induction false} CleanOfNormal(tags: seq<string>)
    requires forall t :: t in tags ==> IsNormal(t)
    ensures Clean(tags) == tags
  {
    if tags != [] {
      assert IsNormal(tags[0]) && forall t :: t in tags[1..] ==> t in tags;
      CleanOfNormal(tags[1..]);
    }
  }

  /** A merged list is proper, and merging it again changes nothing. */
  lemma MergeIsProper(raws: seq<string>)
    ensures Proper(Merge(raws))
    ensures Proper(raws) ==> Merge(raws) == raws
  {
    CleanIsNormal(raws);
    DedupIsDistinct(Clean(raws));
    if Proper(raws) { CleanOfNormal(raws); }
  }

  lemma {:induction false} MergeOfTwo(a: seq<string>, b: seq<string>)
    requires Proper(a) && Proper(b)
    ensures Merge(a + b) == a + Minus(b, ToSet(a))
  {
    CleanOfNormal(a + b);
    DedupConcat(a, b);
  }

  lemma {:induction false} KeepIsProper(tags: seq<string>, user: bool)
    requires Proper(tags)
    ensures Proper(Keep(tags, user))
  {
    KeepKeepsDistinct(tags, user);
  }

  /** The filters split a list in two, losing nothing. */
  lemma {:induction false} KeepsPartition(tags: seq<string>)
    ensures multiset(Keep(tags, false)) + multiset(Keep(tags, true)) == multiset(tags)
  {
    if tags != [] {
      assert tags == [tags[0]] + tags[1..];
      KeepsPartition(tags[1..]);
    }
  }

  /** What the filtering functions of the program give: the merged tags of one kind, in the merged order. */
  function Filter(raws: seq<string>, user: bool): seq<string> { Merge(Keep(Clean(raws), user)) }

  lemma {:induction false} FilterIsKeep(raws: seq<string>, user: bool)
    ensures Filter(raws, user) == Keep(Merge(raws), user)
    ensures Proper(Filter(raws, user))
  {
    CleanIsNormal(raws);
    CleanOfNormal(Keep(Clean(raws), user));
    KeepDedup(Clean(raws), user);
    MergeIsProper(Keep(Clean(raws), user));
  }

  /** The filters are disjoint, together they are everything, and merging them back loses nothing. */
  lemma FiltersPartition(raws: seq<string>)
    ensures multiset(Filter(raws, false)) + multiset(Filter(raws, true)) == multiset(Merge(raws))
    ensures Merge(Filter(raws, false) + Filter(raws, true)) == Filter(raws, false) + Filter(raws, true)
  {
    FilterIsKeep(raws, false);
    FilterIsKeep(raws, true);
    KeepsPartition(Merge(raws));
    MergeOfTwo(Filter(raws, false), Filter(raws, true));
    MinusNothing(Filter(raws, true), ToSet(Filter(raws, false)));
  }

  // --------------------------------------------------------------------------------------------
  // The program's loops

  function Flat(parts: seq<seq<string>>): seq<string> { if parts == [] then [] else parts[0] + Flat(parts[1..]) }

  /** What a merge under way will give, from the tags it has and the clean tags to come. */
  function Pending(tags: seq<string>, rest: seq<string>): seq<string> { tags + Dedup(Minus(rest, ToSet(tags))) }

  function Add(tags: seq<string>, tag: string): seq<string> { if tag in tags then tags else tags + [tag] }

  lemma ToSetMore(tags: seq<string>, tag: string)
    ensures ToSet(Add(tags, tag)) == ToSet(tags) + {tag}
  {
  }

  lemma AddKeepsPending(tags: seq<string>, tag: string, rest: seq<string>)
    ensures Pending(Add(tags, tag), rest) == Pending(tags, [tag] + rest)
  {
    MinusCons(tag, rest, ToSet(tags));
    if tag in tags {
      assert [] + Minus(rest, ToSet(tags)) == Minus(rest, ToSet(tags));
    } else {
      NewTagKeepsPending(tags, tag, rest, ToSet(tags));
    }
  }

  lemma {:induction false} NewTagKeepsPending(tags: seq<string>, tag: string, rest: seq<string>, known: set<string>)
    requires known == ToSet(tags) && tag !in tags
    ensures Pending(Add(tags, tag), rest) == tags + Dedup([tag] + Minus(rest, known))
  {
    ToSetMore(tags, tag);
    DedupCons(tag, Minus(rest, known));
    MinusTwice(rest, known, {tag});
    Reassociate(tags, [tag], Dedup(Minus(rest, known + {tag})));
  }

  lemma CleanNext(raws: seq<string>, i: nat)
    requires i < |raws|
    ensures Clean(raws[i..])
            == if Normal(raws[i]) == "" then Clean(raws[i + 1..]) else [Normal(raws[i])] + Clean(raws[i + 1..])
  {
    assert raws[i..][1..] == raws[i + 1..];
  }

  lemma CleanCons(raws: seq<string>, i: nat, rest: seq<string>)
    requires i < |raws|
    ensures Clean(raws[i..]) + rest
            == if Normal(raws[i]) == "" then Clean(raws[i + 1..]) + rest
                else [Normal(raws[i])] + (Clean(raws[i + 1..]) + rest)
  {
    CleanNext(raws, i);
  }

  lemma {:induction false} CleanConcat(a: seq<string>, b: seq<string>)
    ensures Clean(a + b) == Clean(a) + Clean(b)
  {
    if a == [] {
      assert a + b == b;
    } else {
      assert (a + b)[1..] == a[1..] + b;
      CleanConcat(a[1..], b);
    }
  }

  /** One list of `mergeProviderDispatchTags`: tags seen before are skipped. */
  method MergeList(tags: seq<string>, seen: set<string>, values: seq<string>, ghost later: seq<string>)
    returns (more: seq<string>, known: set<string>)
    requires seen == ToSet(tags)
    ensures known == ToSet(more) && Pending(more, later) == Pending(tags, Clean(values) + later)
  {
    more, known := tags, seen;
    assert values[0..] == values;
    for i := 0 to |values|
      invariant known == ToSet(more)
      invariant Pending(more, Clean(values[i..]) + later) == Pending(tags, Clean(values) + later)
    {
      var tag := Normal(values[i]);
      CleanCons(values, i, later);
      if tag == "" { continue; }
      AddKeepsPending(more, tag, Clean(values[i + 1..]) + later);
      if tag in known { continue; }
      ToSetMore(more, tag);
      known := known + {tag};
      more := more + [tag];
    }
    assert Clean(values[|values|..]) + later == later;
  }

  /** `mergeProviderDispatchTags`. */
  method MergeTags(parts: seq<seq<string>>) returns (tags: seq<string>)
    ensures tags == Merge(Flat(parts))
  {
    tags := [];
    var seen: set<string> := {};
    assert parts[0..] == parts;
    MinusNothing(Clean(Flat(parts)), {});
    for i := 0 to |parts|
      invariant seen == ToSet(tags)
      invariant Pending(tags, Clean(Flat(parts[i..]))) == Merge(Flat(parts))
    {
      assert parts[i..][1..] == parts[i + 1..];
      CleanConcat(parts[i], Flat(parts[i + 1..]));
      tags, seen := MergeList(tags, seen, parts[i], Clean(Flat(parts[i + 1..])));
    }
    assert Pending(tags, []) == tags;
  }

  lemma {:induction false} KeepStep(items: seq<string>, raws: seq<string>, i: nat, user: bool)
    requires i < |raws|
    ensures items + Keep(Clean(raws[i..]), user)
            == (if Normal(raws[i]) != "" && IsUserTag(Normal(raws[i])) == user
                then items + [Normal(raws[i])] else items)
               + Keep(Clean(raws[i + 1..]), user)
  {
    CleanNext(raws, i);
    if Normal(raws[i]) != "" { KeepNext(items, Normal(raws[i]), Clean(raws[i + 1..]), user); }
  }

  lemma {:induction false} KeepNext(items: seq<string>, tag: string, rest: seq<string>, user: bool)
    ensures items + Keep([tag] + rest, user)
            == (if IsUserTag(tag) == user then items + [tag] else items) + Keep(rest, user)
  {
    KeepCons(tag, rest, user);
    Reassociate(items, [tag], Keep(rest, user));
    assert [] + Keep(rest, user) == Keep(rest, user);
  }

  /** `filterProtectedProviderDispatchTags` and `filterUserProviderDispatchTags`. */
  method FilterTags(raws: seq<string>, user: bool) returns (tags: seq<string>)
    ensures tags == Filter(raws, user)
  {
    var items: seq<string> := [];
    assert raws[0..] == raws && [] + Keep(Clean(raws), user) == Keep(Clean(raws), user);
    for i := 0 to |raws|
      invariant items + Keep(Clean(raws[i..]), user) == Keep(Clean(raws), user)
    {
      var tag := Normal(raws[i]);
      NormalIsStable(raws[i]);
      KeepStep(items, raws, i, user);
      if tag == "" || IsUserTag(Normal(tag)) != user { continue; }
      items := items + [tag];
    }
    assert items + [] == items;
    tags := MergeTags([items]);
    assert Flat([items]) == items + [] by { assert [items][1..] == []; }
  }

  // --------------------------------------------------------------------------------------------
  // Where the tags come from

  predicate PlainChar(c: char) { 'a' <= c <= 'z' || '0' <= c <= '9' || c == '-' || c == '_' || c == ':' }

  lemma PlainIsNormal(tag: string)
    requires tag != "" && forall k :: 0 <= k < |tag| ==> PlainChar(tag[k])
    ensures IsNormal(tag)
  {
    assert PlainChar(tag[0]) && PlainChar(tag[|tag| - 1]);
    TrimIsTrimmed(tag);
    assert Lower(tag) == tag;
  }

  function Dashed(value: string): (part: string)
    ensures |part| == |value| && forall k :: 0 <= k < |part| ==> PlainChar(part[k])
    ensures forall k :: 0 <= k < |value| ==>
              (part[k] == value[k] && value[k] != ':') || (part[k] == '-' && (!PlainChar(value[k]) || value[k] == ':'))
  {
    if value == "" then ""
    else [if PlainChar(value[0]) && value[0] != ':' then value[0] else '-'] + Dashed(value[1..])
  }

  function TrimDashes(part: string): (r: string)
    requires forall k :: 0 <= k < |part| ==> PlainChar(part[k])
    ensures forall k :: 0 <= k < |r| ==> PlainChar(r[k])
    ensures r != "" ==> r[0] != '-' && r[|r| - 1] != '-'
  {
    if part == "" then ""
    else if part[0] == '-' then TrimDashes(part[1..])
    else if part[|part| - 1] == '-' then TrimDashes(part[..|part| - 1])
    else part
  }

  const USER_ROLE := "user"

  /** `normalizeDispatchTagPart`, for the role of a user. */
  function RolePart(role: string): (part: string)
    ensures part != "" && forall k :: 0 <= k < |part| ==> PlainChar(part[k])
  {
    var value := if Normal(role) == "" then USER_ROLE else Normal(role);
    var part := TrimDashes(Dashed(value));
    if part == "" then USER_ROLE else part
  }

  predicate AllDashes(s: string) { forall k :: 0 <= k < |s| ==> s[k] == '-' }

  lemma {:induction false} TrimDashesIs(before: string, core: string, after: string)
    requires AllDashes(before) && AllDashes(after)
    requires forall k :: 0 <= k < |core| ==> PlainChar(core[k])
    requires core != "" ==> core[0] != '-' && core[|core| - 1] != '-'
    ensures TrimDashes(before + core + after) == core
    decreases |before| + |after|
  {
    var part := before + core + after;
    if before != "" {
      assert part[0] == '-' && part[1..] == before[1..] + core + after;
      TrimDashesIs(before[1..], core, after);
    } else if after != "" {
      var n := |after| - 1;
      assert part[|part| - 1] == '-' && part[..|part| - 1] == before + core + after[..n];
      if core == "" {
        assert part[1..] == before + core + after[1..];
        TrimDashesIs(before, core, after[1..]);
      } else {
        TrimDashesIs(before, core, after[..n]);
      }
    } else {
      assert part == core;
    }
  }

  /** Letters, digits, dashes and underscores, with no dash at either end. */
  predicate PlainPart(part: string) {
    && part != "" && part[0] != '-' && part[|part| - 1] != '-'
    && forall k :: 0 <= k < |part| ==> 'a' <= part[k] <= 'z' || '0' <= part[k] <= '9' || part[k] in {'-', '_'}
  }

  /** Such a role is its own tag, whatever the case of its letters and the white space around it. */
  lemma {:induction false} RolePartIs(before: string, role: string, after: string)
    requires AllSpace(before) && AllSpace(after) && Trimmed(role) && PlainPart(Lower(role))
    ensures RolePart(before + role + after) == Lower(role)
  {
    TrimIsCore(before, role, after);
    PlainPartIsKept(Lower(role));
  }

  lemma {:induction false} PlainPartIsKept(part: string)
    requires PlainPart(part)
    ensures TrimDashes(Dashed(part)) == part
  {
    assert Dashed(part) == part;
    assert "" + part + "" == part;
    TrimDashesIs("", part, "");
  }

  /** The tags of a user now: the role, the subscription level and the wallet level. */
  function CurrentTags(role: string, subscriptionLevel: string, walletLevel: string): seq<string> {
    Merge(["role:" + RolePart(role), subscriptionLevel, walletLevel])
  }

  lemma {:induction false} CleanMember(raws: seq<string>, tag: string)
    ensures tag in Clean(raws) <==> tag != "" && exists raw :: raw in raws && Lower(Trim(raw)) == tag
  {
    if raws != [] {
      assert raws == [raws[0]] + raws[1..];
      CleanMember(raws[1..], tag);
    }
  }

  lemma {:induction false} CleanOf(raw: string, rest: seq<string>)
    ensures Clean([raw] + rest) == (if Normal(raw) == "" then [] else [Normal(raw)]) + Clean(rest)
  {
    assert ([raw] + rest)[1..] == rest;
  }

  lemma {:induction false} FirstOfMerge(tag: string, rest: seq<string>)
    requires IsNormal(tag)
    ensures Merge([tag] + rest) == [tag] + Dedup(Minus(Clean(rest), {tag}))
  {
    CleanOf(tag, rest);
    DedupCons(tag, Clean(rest));
  }

  lemma MembersOfMerge(tag: string, a: string, b: string, t: string)
    requires IsNormal(tag)
    ensures t in Merge([tag, a, b]) <==> t != "" && t in {tag, Normal(a), Normal(b)}
  {
    CleanMember([tag, a, b], t);
  }

  /** Three names, and no two alike. */
  predicate AllDiffer(a: string, b: string, c: string) {
    a != "" && b != "" && c != "" && a != b && a != c && b != c
  }

  lemma MergeOfThree(tag: string, a: string, b: string)
    requires IsNormal(tag) && AllDiffer(tag, Normal(a), Normal(b))
    ensures Merge([tag, a, b]) == [tag, Normal(a), Normal(b)]
  {
    CleanOf(b, []);
    CleanOf(a, [b]);
    CleanOf(tag, [a, b]);
    assert [tag] + [a, b] == [tag, a, b] && [a] + [b] == [a, b] && [b] + [] == [b];
    assert Clean([tag, a, b]) == [tag, Normal(a), Normal(b)];
    DedupIsDistinct([tag, Normal(a), Normal(b)]);
  }

  /** The list begins with this tag; the others are the two names, if they are any, in their order. */
  ghost predicate BeginsWith(tags: seq<string>, tag: string, a: string, b: string) {
    && Proper(tags) && tags != [] && tags[0] == tag
    && (forall t :: t in tags <==> t != "" && t in {tag, a, b})
    && (AllDiffer(tag, a, b) ==> tags == [tag, a, b])
  }

  lemma MergeBeginsWith(tag: string, a: string, b: string)
    requires IsNormal(tag)
    ensures BeginsWith(Merge([tag, a, b]), tag, Normal(a), Normal(b))
  {
    MergeIsProper([tag, a, b]);
    FirstOfMerge(tag, [a, b]);
    assert [tag] + [a, b] == [tag, a, b];
    forall t ensures t in Merge([tag, a, b]) <==> t != "" && t in {tag, Normal(a), Normal(b)} {
      MembersOfMerge(tag, a, b, t);
    }
    if AllDiffer(tag, Normal(a), Normal(b)) { MergeOfThree(tag, a, b); }
  }

  /**
   Whatever the levels are called, the first tag of a user is the role tag; the others are the levels, if
   they have a name, first the one of the subscription.
   */
  lemma CurrentTagsStartWithRole(role: string, subscriptionLevel: string, walletLevel: string)
    ensures var tag := "role:" + RolePart(role);
            && IsUserTag(tag)
            && BeginsWith(CurrentTags(role, subscriptionLevel, walletLevel), tag, Normal(subscriptionLevel),
                          Normal(walletLevel))
  {
    var tag := "role:" + RolePart(role);
    PlainIsNormal(tag);
    MergeBeginsWith(tag, subscriptionLevel, walletLevel);
  }

  /** The fields of a request that are turned into tags. */
  const FIELDS := ["mode", "quality", "size", "model", "modelId", "vendor", "adapter"]

  predicate FieldKey(key: string) { key != "" && key[0] in {'m', 'q', 's', 'v', 'a'} }

  function FieldTags(fields: map<string, string>, keys: seq<string>): seq<string> {
    if keys == [] then []
    else
      (if keys[0] in fields && Trim(fields[keys[0]]) != "" then [keys[0] + ":" + Trim(fields[keys[0]])] else [])
      + FieldTags(fields, keys[1..])
  }

  function Described(fields: map<string, string>): seq<string> { FieldTags(fields, FIELDS) }

  lemma FieldTagIsRequestTag(key: string, value: string)
    requires FieldKey(key) && Trimmed(value) && value != ""
    ensures Normal(key + ":" + value) != "" && !IsUserTag(Normal(key + ":" + value))
  {
    var tag := key + ":" + value;
    assert tag[0] == key[0] && tag[|tag| - 1] == value[|value| - 1];
    assert !IsSpace(key[0]);
    TrimIsTrimmed(tag);
    assert Normal(tag)[0] == key[0];
  }

  lemma {:induction false} FieldTagsAreRequestTags(fields: map<string, string>, keys: seq<string>)
    requires forall k :: 0 <= k < |keys| ==> FieldKey(keys[k])
    ensures forall t :: t in Clean(FieldTags(fields, keys)) ==> !IsUserTag(t)
  {
    if keys != [] {
      var rest := FieldTags(fields, keys[1..]);
      FieldTagsAreRequestTags(fields, keys[1..]);
      var here := FieldTags(fields, keys);
      if keys[0] in fields && Trim(fields[keys[0]]) != "" {
        TrimIsTrimmed(fields[keys[0]]);
        FieldTagIsRequestTag(keys[0], Trim(fields[keys[0]]));
        assert here[1..] == rest;
      } else {
        assert here == rest;
      }
    }
  }

  lemma DescribedAreRequestTags(fields: map<string, string>)
    ensures forall t :: t in Clean(Described(fields)) ==> !IsUserTag(t)
  {
    var keys := FIELDS;
    FieldTagsAreRequestTags(fields, keys);
  }

  lemma {:induction false} FieldTagsMember(fields: map<string, string>, keys: seq<string>, tag: string)
    ensures tag in FieldTags(fields, keys)
            <==> exists key :: && key in keys && key in fields && Trim(fields[key]) != ""
                               && tag == key + ":" + Trim(fields[key])
  {
    if keys != [] {
      assert keys == [keys[0]] + keys[1..];
      FieldTagsMember(fields, keys[1..], tag);
    }
  }

  // --------------------------------------------------------------------------------------------
  // Enriching a payload

  /** The parts of a stored payload that carry tags; an absent list and an empty one are the same. */
  datatype Payload = Payload(requestTags: seq<string>, userTags: seq<string>, dispatchTags: seq<string>,
      fields: map<string, string>)

  /** `extractProviderDispatchTags`. */
  function Metadata(p: Payload): seq<string> { Merge(p.dispatchTags + Described(p.fields)) }

  function RequestTags(p: Payload, metadata: seq<string>, trusted: bool): seq<string> {
    Filter(if trusted && p.requestTags != [] then p.requestTags else metadata, false)
  }

  function UserTags(p: Payload, trusted: bool, current: seq<string>): seq<string> {
    if trusted && Filter(p.userTags, true) != [] then Filter(p.userTags, true) else current
  }

  function Enriched(p: Payload, metadata: seq<string>, trusted: bool, current: seq<string>): Payload {
    var request, user := RequestTags(p, metadata, trusted), UserTags(p, trusted, current);
    p.(requestTags := Merge(request), userTags := Merge(user), dispatchTags := Merge(request + user))
  }

  /** What a submitted request is stored as, and what a stored job becomes when it is started from the queue. */
  function Submitted(p: Payload, current: seq<string>): Payload { Enriched(p, Metadata(p), false, current) }

  function Requeued(p: Payload, current: seq<string>): Payload { Enriched(p, Metadata(p), true, current) }

  class TaggedPayload {
    var requestTags: seq<string>
    var userTags: seq<string>
    var dispatchTags: seq<string>
    const fields: map<string, string>

    constructor (p: Payload)
      ensures Contents() == p
    {
      requestTags, userTags, dispatchTags, fields := p.requestTags, p.userTags, p.dispatchTags, p.fields;
    }

    function Contents(): Payload
      reads this
    {
      Payload(requestTags, userTags, dispatchTags, fields)
    }

    method Has(tags: seq<string>, value: string) returns (existing: bool)
      ensures existing == (value in tags)
    {
      for k := 0 to |tags|
        invariant value !in tags[..k]
      {
        if tags[k] == value { return true; }
        assert tags[..k + 1] == tags[..k] + [tags[k]];
      }
      assert tags[..|tags|] == tags;
      return false;
    }

    /** `extractProviderDispatchTags`, which looks each value up in the list it builds. */
    method Extract() returns (tags: seq<string>)
      ensures tags == Metadata(Contents())
    {
      var values := dispatchTags + Described(fields);
      tags := [];
      assert values[0..] == values;
      PendingFromNone(Clean(values));
      for i := 0 to |values|
        invariant Pending(tags, Clean(values[i..])) == Merge(values)
      {
        var value := Normal(values[i]);
        CleanNext(values, i);
        if value == "" { continue; }
        AddKeepsPending(tags, value, Clean(values[i + 1..]));
        var existing := Has(tags, value);
        if !existing { tags := tags + [value]; }
      }
      assert Pending(tags, []) == tags;
    }

    /** `setProviderDispatchTagPayload`: what is stored under one key. */
    method Stored(tags: seq<string>) returns (stored: seq<string>)
      ensures stored == Merge(tags)
    {
      FlatOfOne(tags);
      stored := MergeTags([tags]);
    }

    /** `enrichProviderImageDispatchTags`, given the tags the user has now. */
    method Enrich(metadata: seq<string>, trusted: bool, current: seq<string>) returns (dispatch: seq<string>)
      modifies `requestTags, `userTags, `dispatchTags
      ensures Contents() == Enriched(old(Contents()), metadata, trusted, current)
      ensures dispatch == dispatchTags
    {
      var request: seq<string> := [];
      if trusted { request := requestTags; }
      if |request| == 0 { request := metadata; }
      request := FilterTags(request, false);
      var user: seq<string> := [];
      if trusted { user := FilterTags(userTags, true); }
      if |user| == 0 { user := current; }
      dispatch := Combined(request, user);
      requestTags := Stored(request);
      userTags := Stored(user);
      dispatchTags := Stored(dispatch);
    }

    method Combined(request: seq<string>, user: seq<string>) returns (dispatch: seq<string>)
      ensures dispatch == Merge(request + user) && Merge(dispatch) == dispatch
    {
      FlatOfTwo(request, user);
      dispatch := MergeTags([request, user]);
      MergeIsProper(request + user);
      MergeIsProper(dispatch);
    }
  }

  lemma {:induction false} PendingFromNone(rest: seq<string>)
    ensures Pending([], rest) == Dedup(rest)
  {
    assert ToSet<string>([]) == {};
    MinusNothing(rest, {});
    assert [] + Dedup(rest) == Dedup(rest);
  }

  lemma FlatOfOne(part: seq<string>)
    ensures Flat([part]) == part
  {
    assert [part][1..] == [];
    assert part + [] == part;
  }

  lemma FlatOfTwo(a: seq<string>, b: seq<string>)
    ensures Flat([a, b]) == a + b
  {
    assert [a, b][1..] == [b];
    FlatOfOne(b);
  }

  // --------------------------------------------------------------------------------------------
  // What the tags of a job are, and what a requeue does to them

  lemma {:induction false} KeepAll(tags: seq<string>, user: bool)
    requires forall t :: t in tags ==> IsUserTag(t) == user
    ensures Keep(tags, user) == tags
  {
    if tags != [] {
      assert tags[0] in tags && forall t :: t in tags[1..] ==> t in tags;
      KeepAll(tags[1..], user);
    }
  }

  lemma {:induction false} KeepNone(tags: seq<string>, user: bool)
    requires forall t :: t in tags ==> IsUserTag(t) != user
    ensures Keep(tags, user) == []
  {
    if tags != [] {
      assert tags[0] in tags && forall t :: t in tags[1..] ==> t in tags;
      KeepNone(tags[1..], user);
    }
  }

  lemma EnrichedIs(p: Payload, metadata: seq<string>, trusted: bool, current: seq<string>)
    requires Proper(current)
    ensures var e := Enriched(p, metadata, trusted, current);
            && e.requestTags == RequestTags(p, metadata, trusted) && e.userTags == UserTags(p, trusted, current)
            && Proper(e.requestTags) && Proper(e.userTags)
            && (forall t :: t in e.requestTags ==> !IsUserTag(t))
            && e.dispatchTags == e.requestTags + Minus(e.userTags, ToSet(e.requestTags))
  {
    var request, user := RequestTags(p, metadata, trusted), UserTags(p, trusted, current);
    FilterIsKeep(if trusted && p.requestTags != [] then p.requestTags else metadata, false);
    FilterIsKeep(p.userTags, true);
    MergeIsProper(request);
    MergeIsProper(user);
    MergeOfTwo(request, user);
  }

  /** A tag that one of the tags of a payload, or one of its seven fields, asks for. */
  ghost predicate AskedFor(p: Payload, tag: string) {
    || (exists raw :: raw in p.dispatchTags && Lower(Trim(raw)) == tag)
    || (exists key :: FieldSays(p.fields, key, tag))
  }

  predicate FieldSays(fields: map<string, string>, key: string, tag: string) {
    && key in {"mode", "quality", "size", "model", "modelId", "vendor", "adapter"}
    && key in fields && !AllSpace(fields[key]) && tag == Lower(key + ":" + Trim(fields[key]))
  }

  /** The tags of a submitted job: those the user has, and those asked for that do not speak for a user. */
  lemma SubmittedTagsIff(p: Payload, current: seq<string>, tag: string)
    requires Proper(current)
    ensures tag in Submitted(p, current).dispatchTags
            <==> || tag in current
                 || (tag != "" && AskedFor(p, tag) && !("tier:" <= tag || "wallet:" <= tag || "role:" <= tag))
  {
    EnrichedIs(p, Metadata(p), false, current);
    FilterIsKeep(Metadata(p), false);
    MergeIsProper(p.dispatchTags + Described(p.fields));
    MergeIsProper(Metadata(p));
    MetadataMember(p, tag);
  }

  lemma MetadataMember(p: Payload, tag: string)
    ensures tag in Metadata(p) <==> tag != "" && AskedFor(p, tag)
  {
    CleanConcat(p.dispatchTags, Described(p.fields));
    CleanMember(p.dispatchTags, tag);
    DescribedMember(p.fields, tag);
    if exists key :: FieldSays(p.fields, key, tag) {
      var key :| FieldSays(p.fields, key, tag);
      SaidIsDescribed(p.fields, key);
    }
  }

  lemma DescribedMember(fields: map<string, string>, tag: string)
    ensures tag in Clean(Described(fields)) <==> exists key :: FieldSays(fields, key, tag)
  {
    CleanMember(Described(fields), tag);
    if tag in Clean(Described(fields)) {
      var raw :| raw in Described(fields) && Lower(Trim(raw)) == tag;
      var key := DescribedSays(fields, raw);
      assert FieldSays(fields, key, tag);
    }
    if exists key :: FieldSays(fields, key, tag) {
      var key :| FieldSays(fields, key, tag);
      SaidIsDescribed(fields, key);
    }
  }

  lemma KeysAreFields(key: string)
    ensures key in FIELDS <==> key in {"mode", "quality", "size", "model", "modelId", "vendor", "adapter"}
    ensures key in FIELDS ==> FieldKey(key)
  {
  }

  lemma DescribedSays(fields: map<string, string>, raw: string) returns (key: string)
    requires raw in Described(fields)
    ensures FieldSays(fields, key, Lower(Trim(raw)))
  {
    FieldTagsMember(fields, FIELDS, raw);
    key :| key in FIELDS && key in fields && Trim(fields[key]) != "" && raw == key + ":" + Trim(fields[key]);
    KeysAreFields(key);
    FieldTagIsTrimmed(key, fields[key]);
  }

  lemma SaidIsDescribed(fields: map<string, string>, key: string)
    requires key in {"mode", "quality", "size", "model", "modelId", "vendor", "adapter"}
    requires key in fields && !AllSpace(fields[key])
    ensures var raw := key + ":" + Trim(fields[key]);
            raw in Described(fields) && Lower(Trim(raw)) == Lower(raw) && Lower(raw) != ""
  {
    KeysAreFields(key);
    FieldTagIsTrimmed(key, fields[key]);
    FieldTagsMember(fields, FIELDS, key + ":" + Trim(fields[key]));
  }

  lemma {:induction false} FieldTagIsTrimmed(key: string, value: string)
    requires FieldKey(key)
    ensures Trim(value) != "" <==> !AllSpace(value)
    ensures Trim(value) != "" ==> Trim(key + ":" + Trim(value)) == key + ":" + Trim(value)
    ensures |Lower(key + ":" + Trim(value))| > 0
  {
    BlankIff(value);
    TrimIsTrimmed(value);
    assert !IsSpace(key[0]);
    TrimIsTrimmed(key + ":" + Trim(value));
  }

  /** A client's payload cannot claim a level or a role: those tags come from what the user has. */
  lemma ClientsCannotClaimLevels(p: Payload, current: seq<string>, tag: string)
    requires Proper(current)
    ensures tag in Submitted(p, current).dispatchTags && IsUserTag(tag) ==> tag in current
    ensures tag in current ==> tag in Submitted(p, current).dispatchTags
  {
    EnrichedIs(p, Metadata(p), false, current);
  }

  /** The stored user tags that a requeue trusts are the prefixed ones, whatever the user has by then. */
  lemma {:induction false} RequeueTrustsStoredUserTags(p: Payload, current: seq<string>, fields: map<string, string>,
      later: seq<string>)
    requires Proper(current) && current != [] && IsUserTag(current[0]) && Proper(later)
    ensures Requeued(Submitted(p, current).(fields := fields), later).userTags == Keep(current, true)
    ensures Keep(current, true) != []
  {
    var q := Submitted(p, current).(fields := fields);
    EnrichedIs(p, Metadata(p), false, current);
    EnrichedIs(q, Metadata(q), true, later);
    FilterIsKeep(q.userTags, true);
    MergeIsProper(q.userTags);
    assert current[0] in Keep(current, true);
  }

  lemma {:induction false} MinusOthers(user: seq<string>, request: set<string>)
    requires forall t :: t in request ==> !IsUserTag(t)
    requires forall t :: t in user ==> IsUserTag(t) || t in request
    ensures Minus(user, request) == Keep(user, true)
  {
    if user != [] {
      assert user[0] in user && forall t :: t in user[1..] ==> t in user;
      MinusOthers(user[1..], request);
    }
  }

  /** With request tags of its own, a requeued job keeps its tags exactly if no user tag is lost. */
  lemma {:induction false} RequeueWithRequestTags(request: seq<string>, user: seq<string>)
    requires Proper(request) && Proper(user) && forall t :: t in request ==> !IsUserTag(t)
    ensures (request + Minus(user, ToSet(request)) == request + Minus(Keep(user, true), ToSet(request)))
            <==> forall t :: t in user ==> IsUserTag(t) || t in request
  {
    var before, after := Minus(user, ToSet(request)), Keep(user, true);
    MinusNothing(after, ToSet(request));
    if forall t :: t in user ==> IsUserTag(t) || t in request {
      MinusOthers(user, ToSet(request));
    } else {
      var t :| t in user && !IsUserTag(t) && t !in request;
      assert t in before && t !in after;
      assert (request + before)[|request|..] == before && (request + after)[|request|..] == after;
    }
  }

  lemma EmptyIffNoMember(tags: seq<string>)
    ensures tags == [] <==> forall t :: t !in tags
  {
    if tags != [] { assert tags[0] in tags; }
  }

  /** Tags that a user list and field tags leave for the request. */
  lemma {:induction false} LeftForRequest(user: seq<string>, described: seq<string>)
    requires Proper(user)
    requires forall t :: t in Clean(described) ==> !IsUserTag(t)
    ensures var request := Filter(Merge(user + described), false);
            && Proper(request) && (forall t :: t in request ==> !IsUserTag(t))
            && (request == [] <==> (forall t :: t in user ==> IsUserTag(t)) && Clean(described) == [])
  {
    var request := Filter(Merge(user + described), false);
    FilterIsKeep(Merge(user + described), false);
    MergeIsProper(user + described);
    MergeIsProper(Merge(user + described));
    CleanConcat(user, described);
    CleanOfNormal(user);
    assert forall t :: t in request <==> t in user + Clean(described) && !IsUserTag(t);
    EmptyIffNoMember(request);
    EmptyIffNoMember(Clean(described));
    assert forall t :: t in user + Clean(described) <==> t in user || t in Clean(described);
  }

  /** Without request tags, the first requeue turns unprefixed user tags and field tags into request tags. */
  lemma {:induction false} RequeueWithoutRequestTags(user: seq<string>, request: seq<string>)
    requires user != [] && IsUserTag(user[0])
    requires forall t :: t in request ==> !IsUserTag(t)
    requires request == [] ==> forall t :: t in user ==> IsUserTag(t)
    ensures request + Minus(Keep(user, true), ToSet(request)) == user <==> request == []
  {
    if request != [] {
      assert request[0] in request;
      assert (request + Minus(Keep(user, true), ToSet(request)))[0] == request[0];
    } else {
      MinusNothing(Keep(user, true), ToSet(request));
      KeepAll(user, true);
      assert [] + user == user;
    }
  }

  lemma {:induction false} RequeuedIs(p: Payload, current: seq<string>, fields: map<string, string>, later: seq<string>)
    requires Proper(current) && current != [] && IsUserTag(current[0]) && Proper(later)
    ensures var q := Submitted(p, current).(fields := fields);
            var request := if q.requestTags != [] then q.requestTags
                else Filter(Merge(current + Described(fields)), false);
            && Proper(q.requestTags) && (forall t :: t in q.requestTags ==> !IsUserTag(t))
            && q.dispatchTags == q.requestTags + Minus(current, ToSet(q.requestTags))
            && Requeued(q, later).requestTags == request
            && Requeued(q, later).dispatchTags == request + Minus(Keep(current, true), ToSet(request))
  {
    var q := Submitted(p, current).(fields := fields);
    EnrichedIs(p, Metadata(p), false, current);
    EnrichedIs(q, Metadata(q), true, later);
    RequeueTrustsStoredUserTags(p, current, fields, later);
    if q.requestTags != [] {
      FilterIsKeep(q.requestTags, false);
      MergeIsProper(q.requestTags);
      KeepAll(q.requestTags, false);
    } else {
      NothingGone(current);
    }
  }

  lemma {:induction false} NothingGone(tags: seq<string>)
    ensures [] + Minus(tags, ToSet([])) == tags
  {
    MinusNothing(tags, ToSet([]));
  }

  lemma RequeueCases(request: seq<string>, current: seq<string>, described: seq<string>)
    requires Proper(request) && forall t :: t in request ==> !IsUserTag(t)
    requires Proper(current) && current != [] && IsUserTag(current[0])
    requires forall t :: t in Clean(described) ==> !IsUserTag(t)
    ensures var next := if request != [] then request else Filter(Merge(current + described), false);
            (next + Minus(Keep(current, true), ToSet(next)) == request + Minus(current, ToSet(request)))
            <==> && (forall t :: t in current ==> IsUserTag(t) || t in request)
                 && (request == [] ==> Clean(described) == [])
  {
    if request != [] {
      RequeueWithRequestTags(request, current);
    } else {
      NothingGone(current);
      LeftForRequest(current, described);
      RequeueWithoutRequestTags(current, Filter(Merge(current + described), false));
    }
  }

  /**
   A requeue gives the tags of the submission exactly if no tag of the user is unprefixed and
   missing from the request, and, when the request had no tags, none of its fields gives one now.
   */
  lemma RequeueKeepsTagsIff(p: Payload, current: seq<string>, fields: map<string, string>, later: seq<string>)
    requires Proper(current) && current != [] && IsUserTag(current[0]) && Proper(later)
    ensures var q := Submitted(p, current).(fields := fields);
            (Requeued(q, later).dispatchTags == q.dispatchTags)
            <==> && (forall t :: t in current ==> IsUserTag(t) || t in q.requestTags)
                 && (q.requestTags == [] ==> Clean(Described(fields)) == [])
  {
    RequeuedIs(p, current, fields, later);
    DescribedAreRequestTags(fields);
    RequeueCases(Submitted(p, current).requestTags, current, Described(fields));
  }

  /**
   A level tag without a prefix steers the job when it is submitted, and no longer when it is started
   from the queue.
   */
  lemma UnprefixedLevelIsLost(p: Payload, current: seq<string>, fields: map<string, string>, later: seq<string>,
      tag: string)
    requires Proper(current) && current != [] && IsUserTag(current[0]) && Proper(later)
    requires tag in current && !IsUserTag(tag)
    ensures tag in Submitted(p, current).dispatchTags
    ensures Submitted(p, current).requestTags != [] ==>
              (tag in Requeued(Submitted(p, current).(fields := fields), later).dispatchTags
               <==> tag in Submitted(p, current).requestTags)
  {
    ClientsCannotClaimLevels(p, current, tag);
    RequeuedIs(p, current, fields, later);
  }

  /** Such jobs exist: whoever has an unprefixed level and asks for any other tag, say `gold` and `fast`. */
  lemma LevelIsLostOnRequeue(role: string, level: string, wanted: string)
    requires IsNormal(role) && IsUserTag(role)
    requires IsNormal(level) && !IsUserTag(level) && IsNormal(wanted) && !IsUserTag(wanted) && level != wanted
    ensures var p, current := Payload([], [], [wanted], map[]), [role, level];
            level in Submitted(p, current).dispatchTags
                && level !in Requeued(Submitted(p, current), current).dispatchTags
  {
    var p, current := Payload([], [], [wanted], map[]), [role, level];
    OnlyRequestTag(p, current, wanted);
    UnprefixedLevelIsLost(p, current, p.fields, current, level);
    assert Submitted(p, current).(fields := p.fields) == Submitted(p, current);
  }

  lemma OnlyRequestTag(p: Payload, current: seq<string>, wanted: string)
    requires p == Payload([], [], [wanted], map[]) && Proper(current) && IsNormal(wanted) && !IsUserTag(wanted)
    ensures Submitted(p, current).requestTags == [wanted]
  {
    NothingDescribed(FIELDS);
    assert p.dispatchTags + Described(p.fields) == [wanted];
    MergeIsProper([wanted]);
    FilterIsKeep([wanted], false);
    KeepAll([wanted], false);
    EnrichedIs(p, Metadata(p), false, current);
  }

  lemma {:induction false} NothingDescribed(keys: seq<string>)
    ensures FieldTags(map[], keys) == []
  {
    if keys != [] { NothingDescribed(keys[1..]); }
  }

  /**
   A payload whose user tags are all prefixed is enriched to itself, if it has request tags or
   nothing that gives one.
   */
  lemma TrustedTagsAreFixed(e: Payload, later: seq<string>)
    requires Proper(e.requestTags) && forall t :: t in e.requestTags ==> !IsUserTag(t)
    requires Proper(e.userTags) && e.userTags != [] && forall t :: t in e.userTags ==> IsUserTag(t)
    requires e.dispatchTags == e.requestTags + e.userTags
    requires e.requestTags == [] ==> Clean(Described(e.fields)) == []
    requires Proper(later)
    ensures Requeued(e, later) == e
  {
    EnrichedIs(e, Metadata(e), true, later);
    FilterIsKeep(e.userTags, true);
    MergeIsProper(e.userTags);
    KeepAll(e.userTags, true);
    FilterIsKeep(e.requestTags, false);
    MergeIsProper(e.requestTags);
    KeepAll(e.requestTags, false);
    MinusNothing(e.userTags, ToSet(e.requestTags));
    if e.requestTags == [] {
      assert [] + e.userTags == e.userTags;
      LeftForRequest(e.userTags, Described(e.fields));
    }
  }

  /** What one requeue stores is a payload that further requeues leave alone. */
  lemma RequeuedTags(request: seq<string>, current: seq<string>, described: seq<string>)
    requires Proper(request) && forall t :: t in request ==> !IsUserTag(t)
    requires Proper(current) && forall t :: t in Clean(described) ==> !IsUserTag(t)
    ensures var next := if request != [] then request else Filter(Merge(current + described), false);
            && Proper(next) && (forall t :: t in next ==> !IsUserTag(t))
            && Proper(Keep(current, true)) && Minus(Keep(current, true), ToSet(next)) == Keep(current, true)
            && (next == [] ==> Clean(described) == [])
  {
    LeftForRequest(current, described);
    KeepIsProper(current, true);
    var next := if request != [] then request else Filter(Merge(current + described), false);
    MinusNothing(Keep(current, true), ToSet(next));
  }

  /** After the first requeue nothing changes any more, however often the job is queued again. */
  lemma RequeueIsStable(p: Payload, current: seq<string>, fields: map<string, string>, later: seq<string>,
      latest: seq<string>)
    requires Proper(current) && current != [] && IsUserTag(current[0]) && Proper(later) && Proper(latest)
    ensures var once := Requeued(Submitted(p, current).(fields := fields), later);
            Requeued(once, latest) == once
  {
    RequeuedIs(p, current, fields, later);
    RequeueTrustsStoredUserTags(p, current, fields, later);
    DescribedAreRequestTags(fields);
    RequeuedTags(Submitted(p, current).requestTags, current, Described(fields));
    TrustedTagsAreFixed(Requeued(Submitted(p, current).(fields := fields), later), latest);
  }
}
