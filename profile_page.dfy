/** The profile page's derived views (ProfilePage.tsx): the favorites search,
    the favorites grouped by category, the reading history newest first,
    the upgrade of the form's profile and the membership goals. */
module ProfilePage {
  import opened Types
  import opened JsText
  import opened Seqs
  import opened Constants
  import AppSession

  // ---------------------------------------------------------------------
  // Favorites search

  /** A favorite matches the search text when its title or its summary,
      lower-cased, contains the lower-cased text. */
  predicate MatchesSearch(t: Topic, q: string)
  {
    Includes(ToLower(Title(t)), ToLower(q)) || Includes(ToLower(Summary(t)), ToLower(q))
  }

  function FilteredFavorites(favs: seq<Topic>, q: string): seq<Topic>
  {
    Filter(favs, (t: Topic) => MatchesSearch(t, q))
  }

  /** The search result keeps the order of the favorites and holds exactly
      the favorites that match. */
  lemma FilteredFavoritesExact(favs: seq<Topic>, q: string)
    ensures IsSubseq(FilteredFavorites(favs, q), favs)
    ensures forall x :: x in FilteredFavorites(favs, q) <==> x in favs && MatchesSearch(x, q)
  {
    FilterIsSubseq(favs, (t: Topic) => MatchesSearch(t, q));
    FilterMembers(favs, (t: Topic) => MatchesSearch(t, q));
  }

  /** An empty search text keeps every favorite. */
  lemma EmptySearchKeepsAll(favs: seq<Topic>)
    ensures FilteredFavorites(favs, "") == favs
  {
    forall i | 0 <= i < |favs| ensures MatchesSearch(favs[i], "") {
      IncludesEmpty(ToLower(Title(favs[i])));
    }
    FilterAll(favs, (t: Topic) => MatchesSearch(t, ""));
  }

  /** The search ignores the case of the search text. */
  lemma SearchIgnoresCase(favs: seq<Topic>, q: string)
    ensures FilteredFavorites(favs, q) == FilteredFavorites(favs, ToLower(q))
  {
    ToLowerIdempotent(q);
    FilterSameCondition(favs, (t: Topic) => MatchesSearch(t, q), (t: Topic) => MatchesSearch(t, ToLower(q)));
  }

  // ---------------------------------------------------------------------
  // Grouping by category

  const Uncategorized: string := "Uncategorized"

  /** The group a favorite belongs to: its category, or "Uncategorized". */
  function GroupKey(t: Topic): string
  {
    if HasCategory(t) then Category(t) else Uncategorized
  }

  /** The entries of `s` that belong to group `k`, in order. */
  function InGroup(s: seq<Topic>, k: string): seq<Topic>
  {
    Filter(s, (t: Topic) => GroupKey(t) == k)
  }

  /** The group keys of `s` in order of their first occurrence: the order
      in which the grouping creates them. */
  function FirstKeys(s: seq<Topic>): seq<string>
  {
    if s == [] then []
    else
      var ks := FirstKeys(s[..|s| - 1]);
      var k := GroupKey(s[|s| - 1]);
      if k in ks then ks else ks + [k]
  }

  /** `groups` and `order` are the grouping of `s`: the keys in creation
      order, one group per key, and each group the entries with that key. */
  ghost predicate Grouped(s: seq<Topic>, groups: map<string, seq<Topic>>, order: seq<string>)
  {
    && order == FirstKeys(s)
    && (forall k :: k in groups <==> k in order)
    && (forall k :: k in groups ==> groups[k] == InGroup(s, k))
  }

  /** Every key of the grouping is the key of some entry, and every entry's
      key is a key of the grouping. */
  lemma {:induction false} FirstKeysMembers(s: seq<Topic>)
    ensures forall i :: 0 <= i < |s| ==> GroupKey(s[i]) in FirstKeys(s)
    ensures forall k :: k in FirstKeys(s) ==> exists i :: 0 <= i < |s| && GroupKey(s[i]) == k
  {
    if s != [] {
      var init := s[..|s| - 1];
      FirstKeysMembers(init);
      forall k | k in FirstKeys(s) ensures exists i :: 0 <= i < |s| && GroupKey(s[i]) == k {
        if k in FirstKeys(init) {
          var i :| 0 <= i < |init| && GroupKey(init[i]) == k;
          assert s[i] == init[i];
        }
      }
      forall i | 0 <= i < |s| ensures GroupKey(s[i]) in FirstKeys(s) {
        if i < |init| {
          assert s[i] == init[i];
        }
      }
    }
  }

  /** No key is created twice. */
  lemma {:induction false} FirstKeysNoDup(s: seq<Topic>)
    ensures NoDup(FirstKeys(s))
  {
    if s != [] {
      FirstKeysNoDup(s[..|s| - 1]);
    }
  }

  /** Appending an entry to the group of a key that already exists. */
  lemma GroupExisting(s: seq<Topic>, t: Topic, groups: map<string, seq<Topic>>, order: seq<string>)
    requires Grouped(s, groups, order) && GroupKey(t) in groups
    ensures Grouped(s + [t], groups[GroupKey(t) := groups[GroupKey(t)] + [t]], order)
  {
    var s' := s + [t];
    var k := GroupKey(t);
    assert s'[..|s'| - 1] == s;
    assert FirstKeys(s') == order;
    forall j | j in groups ensures InGroup(s', j) == InGroup(s, j) + (if j == k then [t] else []) {
      FilterAppend(s, [t], (x: Topic) => GroupKey(x) == j);
    }
  }

  /** Creating the group of a key met for the first time. */
  lemma GroupNew(s: seq<Topic>, t: Topic, groups: map<string, seq<Topic>>, order: seq<string>)
    requires Grouped(s, groups, order) && GroupKey(t) !in groups
    ensures Grouped(s + [t], groups[GroupKey(t) := [t]], order + [GroupKey(t)])
  {
    var s' := s + [t];
    var k := GroupKey(t);
    assert s'[..|s'| - 1] == s;
    assert FirstKeys(s') == order + [k];
    FirstKeysMembers(s);
    assert InGroup(s, k) == [] by {
      FilterNone(s, (x: Topic) => GroupKey(x) == k);
    }
    forall j | j in groups || j == k ensures InGroup(s', j) == InGroup(s, j) + (if j == k then [t] else []) {
      FilterAppend(s, [t], (x: Topic) => GroupKey(x) == j);
    }
  }

  /** The reduce over the search result that collects each favorite into
      the group of its key, creating a group the first time a key is met. */
  method GroupFavorites(filtered: seq<Topic>) returns (groups: map<string, seq<Topic>>, order: seq<string>)
    ensures Grouped(filtered, groups, order)
  {
    groups, order := map[], [];
    var i := 0;
    while i < |filtered|
      invariant 0 <= i <= |filtered|
      invariant Grouped(filtered[..i], groups, order)
    {
      var t := filtered[i];
      assert filtered[..i + 1] == filtered[..i] + [t];
      var k := GroupKey(t);
      if k in groups {
        GroupExisting(filtered[..i], t, groups, order);
        groups := groups[k := groups[k] + [t]];
      } else {
        GroupNew(filtered[..i], t, groups, order);
        groups := groups[k := [t]];
        order := order + [k];
      }
      i := i + 1;
    }
    assert filtered[..i] == filtered;
  }

  /** Each favorite lands in exactly one group, the one of its key; groups
      keep the search order; no group is empty; and there are groups
      exactly when the search result is not empty. */
  lemma GroupingPartitions(s: seq<Topic>, groups: map<string, seq<Topic>>, order: seq<string>)
    requires Grouped(s, groups, order)
    ensures forall x :: x in s ==> GroupKey(x) in groups && x in groups[GroupKey(x)]
    ensures forall k, x :: k in groups && x in groups[k] ==> x in s && GroupKey(x) == k
    ensures forall k :: k in groups ==> IsSubseq(groups[k], s) && |groups[k]| > 0
    ensures NoDup(order)
    ensures order == [] <==> s == []
  {
    FirstKeysMembers(s);
    FirstKeysNoDup(s);
    forall k | k in groups ensures IsSubseq(groups[k], s) && |groups[k]| > 0 {
      FilterIsSubseq(s, (t: Topic) => GroupKey(t) == k);
      FilterMembers(s, (t: Topic) => GroupKey(t) == k);
      var i :| 0 <= i < |s| && GroupKey(s[i]) == k;
      assert s[i] in groups[k];
    }
    forall k | k in groups ensures forall x :: x in groups[k] <==> x in s && GroupKey(x) == k {
      FilterMembers(s, (t: Topic) => GroupKey(t) == k);
    }
    forall x | x in s ensures GroupKey(x) in groups {
      var i :| 0 <= i < |s| && s[i] == x;
    }
    if s != [] {
      assert GroupKey(s[0]) in order;
    }
  }

  /** The number of entries over the groups `ks` of `s`. */
  function GroupSizes(s: seq<Topic>, ks: seq<string>): nat
  {
    if ks == [] then 0 else |InGroup(s, ks[0])| + GroupSizes(s, ks[1..])
  }

  /** The number of entries over the groups `ks` of a grouping. */
  function Total(groups: map<string, seq<Topic>>, ks: seq<string>): nat
  {
    if ks == [] then 0 else (if ks[0] in groups then |groups[ks[0]]| else 0) + Total(groups, ks[1..])
  }

  lemma {:induction false} GroupSizesSnoc(s: seq<Topic>, t: Topic, ks: seq<string>)
    requires NoDup(ks)
    ensures GroupSizes(s + [t], ks) == GroupSizes(s, ks) + (if GroupKey(t) in ks then 1 else 0)
  {
    if ks != [] {
      GroupSizesSnoc(s, t, ks[1..]);
      FilterAppend(s, [t], (x: Topic) => GroupKey(x) == ks[0]);
      assert GroupKey(t) in ks <==> GroupKey(t) == ks[0] || GroupKey(t) in ks[1..];
      assert GroupKey(t) == ks[0] ==> GroupKey(t) !in ks[1..];
    }
  }

  lemma {:induction false} GroupSizesAppendKey(s: seq<Topic>, ks: seq<string>, k: string)
    ensures GroupSizes(s, ks + [k]) == GroupSizes(s, ks) + |InGroup(s, k)|
  {
    if ks == [] {
      assert [k][1..] == [];
    } else {
      assert (ks + [k])[1..] == ks[1..] + [k];
      GroupSizesAppendKey(s, ks[1..], k);
    }
  }

  /** Counting group by group counts every entry once. */
  lemma {:induction false} GroupSizesTotal(s: seq<Topic>)
    ensures GroupSizes(s, FirstKeys(s)) == |s|
  {
    if s != [] {
      var init := s[..|s| - 1];
      var t := s[|s| - 1];
      var k := GroupKey(t);
      assert s == init + [t];
      GroupSizesTotal(init);
      FirstKeysNoDup(init);
      GroupSizesSnoc(init, t, FirstKeys(init));
      if k !in FirstKeys(init) {
        GroupSizesAppendKey(s, FirstKeys(init), k);
        FirstKeysMembers(init);
        assert InGroup(init, k) == [] by {
          FilterNone(init, (x: Topic) => GroupKey(x) == k);
        }
        FilterAppend(init, [t], (x: Topic) => GroupKey(x) == k);
      }
    }
  }

  lemma {:induction false} TotalIsGroupSizes(s: seq<Topic>, groups: map<string, seq<Topic>>, ks: seq<string>)
    requires forall k :: k in groups ==> groups[k] == InGroup(s, k)
    requires forall i :: 0 <= i < |ks| ==> ks[i] in groups
    ensures Total(groups, ks) == GroupSizes(s, ks)
  {
    if ks != [] {
      TotalIsGroupSizes(s, groups, ks[1..]);
    }
  }

  /** Across all groups, the number of items is the number of favorites
      the search kept. */
  lemma GroupingCountsAll(s: seq<Topic>, groups: map<string, seq<Topic>>, order: seq<string>)
    requires Grouped(s, groups, order)
    ensures Total(groups, order) == |s|
  {
    TotalIsGroupSizes(s, groups, order);
    GroupSizesTotal(s);
  }

  // ---------------------------------------------------------------------
  // History, newest first

  /** `[...readHistory].reverse()`. */
  function NewestFirst(h: seq<Topic>): (r: seq<Topic>)
    ensures |r| == |h|
    ensures forall i :: 0 <= i < |h| ==> r[i] == h[|h| - 1 - i]
  {
    if h == [] then [] else NewestFirst(h[1..]) + [h[0]]
  }

  /** The topic read last is listed first, ahead of the earlier list. */
  lemma NewestFirstAppend(h: seq<Topic>, t: Topic)
    ensures NewestFirst(h + [t]) == [t] + NewestFirst(h)
  {
    var r := NewestFirst(h + [t]);
    assert forall i :: 1 <= i <= |h| ==> r[i] == h[|h| - i];
  }

  /** Reversing twice gives back the history. */
  lemma NewestFirstInvolutive(h: seq<Topic>)
    ensures NewestFirst(NewestFirst(h)) == h
  {
  }

  // ---------------------------------------------------------------------
  // Upgrade and goals

  /** The form's profile with the Pro plan. */
  function Upgraded(form: Profile): (r: Profile)
    ensures r.membership == Pro
    ensures r.age == form.age && r.occupation == form.occupation && r.education == form.education
    ensures r.language == form.language && r.incentives == form.incentives
  {
    form.(membership := Pro)
  }

  /** Upgrading twice is upgrading once. */
  lemma UpgradeIdempotent(form: Profile)
    ensures Upgraded(Upgraded(form)) == Upgraded(form)
  {
  }

  /** One membership goal: the counter and its target. */
  datatype Goal = Goal(current: nat, target: nat)

  predicate IsMet(g: Goal)
  {
    g.current >= g.target
  }

  /** The progress bars, in the order the page shows them. */
  function Goals(inc: Incentives): seq<Goal>
  {
    [Goal(inc.currentStreak, StreakGoal), Goal(inc.totalOutsideCocoonReads, ReadsGoal),
     Goal(inc.errorsCorrected, ErrorsGoal), Goal(inc.suggestionsAdopted, SuggestionsGoal),
     Goal(inc.referrals, ReferralsGoal)]
  }

  /** The bars shown for a profile form: all five on the free plan, none on
      the Pro plan. */
  function ShownGoals(form: Profile): seq<Goal>
  {
    if form.membership == Free then Goals(form.incentives) else []
  }

  function MetCount(gs: seq<Goal>): nat
  {
    |Filter(gs, IsMet)|
  }

  /** After an upgrade no goal bar is shown. */
  lemma UpgradeHidesGoals(form: Profile)
    ensures ShownGoals(Upgraded(form)) == []
    ensures form.membership == Free ==> |ShownGoals(form)| == 5
  {
  }

  /** A new session meets none of the five goals. */
  lemma InitialGoalsUnmet()
    ensures MetCount(ShownGoals(AppSession.InitialProfile)) == 0
  {
    var gs := ShownGoals(AppSession.InitialProfile);
    FilterNone(gs, IsMet);
  }

  /** The outside-cocoon goal is met after reading `s` exactly when the
      earlier count plus the outside-cocoon topics of `s` reach the target. */
  lemma ReadsGoalAfter(inc: Incentives, s: seq<Topic>)
    ensures IsMet(Goals(AppSession.CountReads(inc, s))[1])
        <==> inc.totalOutsideCocoonReads + |Filter(s, AppSession.OutsideCocoon)| >= ReadsGoal
  {
    AppSession.CountReadsTotal(inc, s);
  }
}
