/** The session controller of App.tsx: the state the application keeps for
    one user session and the handlers that change it. Completions of the
    asynchronous work (the two search stages, the poller's timer, the
    refresh timeout) are separate event methods whose outcome is a
    parameter. */
module AppSession {
  import opened Types
  import opened JsText
  import opened Seqs

  const SearchFailureText: string :=
    "Unable to analyze this topic. Please check your API key or try a different query."

  /** The profile a session starts with: nothing filled in, English, the
      free plan and the mock incentive counters. */
  const InitialProfile: Profile :=
    Profile("", "", "", "en", Free, Incentives(2, 5, 0, 0, 1))

  /** A topic that counts as reading outside the cocoon: an international
      one, or one whose category is present and is not "Tech". */
  predicate OutsideCocoon(t: Topic)
  {
    IsInternational(t) || (HasCategory(t) && Category(t) != "Tech")
  }

  /** The incentive counters after reading `t`. */
  function CountRead(inc: Incentives, t: Topic): (r: Incentives)
    ensures OutsideCocoon(t) ==> r.totalOutsideCocoonReads == inc.totalOutsideCocoonReads + 1
    ensures !OutsideCocoon(t) ==> r.totalOutsideCocoonReads == inc.totalOutsideCocoonReads
    ensures r.currentStreak == inc.currentStreak && r.errorsCorrected == inc.errorsCorrected
    ensures r.suggestionsAdopted == inc.suggestionsAdopted && r.referrals == inc.referrals
  {
    if OutsideCocoon(t) then inc.(totalOutsideCocoonReads := inc.totalOutsideCocoonReads + 1) else inc
  }

  /** The counters after reading the topics of `s` one after another. */
  function CountReads(inc: Incentives, s: seq<Topic>): Incentives
    decreases s
  {
    if s == [] then inc else CountReads(CountRead(inc, s[0]), s[1..])
  }

  /** Reading a list of topics raises the outside-cocoon counter by the number
      of outside-cocoon topics in it, and by nothing else. */
  lemma {:induction false} CountReadsTotal(inc: Incentives, s: seq<Topic>)
    ensures CountReads(inc, s).totalOutsideCocoonReads
         == inc.totalOutsideCocoonReads + |Filter(s, OutsideCocoon)|
    ensures CountReads(inc, s) == inc.(totalOutsideCocoonReads := CountReads(inc, s).totalOutsideCocoonReads)
    decreases s
  {
    if s != [] {
      CountReadsTotal(CountRead(inc, s[0]), s[1..]);
    }
  }

  /** The favorites without any entry carrying identity `id`. */
  function WithoutId(favs: seq<Topic>, id: string): seq<Topic>
  {
    Filter(favs, (f: Topic) => f.id != id)
  }

  /** The favorites after toggling `t`: every entry with `t`'s identity is
      removed when there is one, otherwise `t` is appended. */
  function Toggled(favs: seq<Topic>, t: Topic): (r: seq<Topic>)
    ensures t.id !in IdSet(favs) ==> r == favs + [t]
    ensures t.id in IdSet(favs) ==> t.id !in IdSet(r)
  {
    if t.id in IdSet(favs) then
      var r := WithoutId(favs, t.id);
      FilterMembers(favs, (f: Topic) => f.id != t.id);
      assert forall i :: 0 <= i < |r| ==> r[i] in r;
      r
    else
      favs + [t]
  }

  /** Filtering a list with unique identities keeps them unique. */
  lemma {:induction false} FilterUnique(s: seq<Topic>, p: Topic -> bool)
    requires UniqueIds(s)
    ensures UniqueIds(Filter(s, p))
  {
    if s != [] {
      assert UniqueIds(s[1..]) by {
        forall i, j | 0 <= i < j < |s[1..]| ensures s[1..][i].id != s[1..][j].id {
          assert s[1..][i] == s[i + 1] && s[1..][j] == s[j + 1];
        }
      }
      FilterUnique(s[1..], p);
      FilterMembers(s[1..], p);
      var rest := Filter(s[1..], p);
      forall k | 0 <= k < |rest| ensures rest[k].id != s[0].id {
        assert rest[k] in s[1..];
        var m :| 0 <= m < |s[1..]| && s[1..][m] == rest[k];
        assert s[m + 1] == rest[k];
      }
    }
  }

  /** Toggling keeps the favorites' identities unique (App.tsx:98-107). */
  lemma ToggledUnique(favs: seq<Topic>, t: Topic)
    requires UniqueIds(favs)
    ensures UniqueIds(Toggled(favs, t))
  {
    if t.id in IdSet(favs) {
      FilterUnique(favs, (f: Topic) => f.id != t.id);
    } else {
      var r := favs + [t];
      forall i, j | 0 <= i < j < |r| ensures r[i].id != r[j].id {
        if j == |favs| {
          assert r[i] == favs[i] && favs[i].id in IdSet(favs);
        }
      }
    }
  }

  /** Removing a favorite keeps every other entry, in order, and drops every
      entry with the same identity. */
  lemma ToggleRemoves(favs: seq<Topic>, t: Topic)
    requires t.id in IdSet(favs)
    ensures IsSubseq(Toggled(favs, t), favs)
    ensures forall x :: x in Toggled(favs, t) <==> x in favs && x.id != t.id
  {
    FilterIsSubseq(favs, (f: Topic) => f.id != t.id);
    FilterMembers(favs, (f: Topic) => f.id != t.id);
  }

  /** Toggling the same record twice restores whether its identity is a
      favorite, and leaves every other identity as it was. */
  lemma ToggleTwiceIds(favs: seq<Topic>, t: Topic)
    ensures IdSet(Toggled(Toggled(favs, t), t)) == IdSet(favs)
  {
    var once := Toggled(favs, t);
    var twice := Toggled(once, t);
    if t.id in IdSet(favs) {
      assert twice == once + [t];
      assert twice[|once|] == t;
      ToggleRemoves(favs, t);
      forall id ensures id in IdSet(twice) <==> id in IdSet(favs) {
        if id in IdSet(favs) && id != t.id {
          var i :| 0 <= i < |favs| && favs[i].id == id;
          assert favs[i] in once;
          var j :| 0 <= j < |once| && once[j] == favs[i];
          assert twice[j] == once[j];
        }
        if id in IdSet(twice) && id != t.id {
          var i :| 0 <= i < |twice| && twice[i].id == id;
          assert i < |once| && twice[i] == once[i];
          assert once[i] in once;
          var j :| 0 <= j < |favs| && favs[j] == once[i];
        }
      }
    } else {
      ToggleTwiceAbsent(favs, t);
    }
  }

  /** Adding a record that was not a favorite and toggling it again gives
      back the original list exactly. */
  lemma ToggleTwiceAbsent(favs: seq<Topic>, t: Topic)
    requires t.id !in IdSet(favs)
    ensures Toggled(Toggled(favs, t), t) == favs
  {
    var p := (f: Topic) => f.id != t.id;
    assert t.id in IdSet(favs + [t]) by {
      assert (favs + [t])[|favs|] == t;
    }
    FilterAppend(favs, [t], p);
    FilterAll(favs, p);
    assert Filter([t], p) == [];
  }

  /** The favorites after a deep-dive result for identity `id` arrived:
      every entry with that identity has the result merged in. */
  function MergeMatching(favs: seq<Topic>, id: string, deep: Partial): (r: seq<Topic>)
    ensures |r| == |favs|
    ensures forall i :: 0 <= i < |favs| && favs[i].id == id ==> r[i] == Merge(favs[i], deep)
    ensures forall i :: 0 <= i < |favs| && favs[i].id != id ==> r[i] == favs[i]
  {
    if favs == [] then []
    else
      var head := if favs[0].id == id then Merge(favs[0], deep) else favs[0];
      var r := [head] + MergeMatching(favs[1..], id, deep);
      assert forall i :: 1 <= i < |favs| ==> r[i] == MergeMatching(favs[1..], id, deep)[i - 1];
      r
  }

  /** Merging keeps every identity in its place. */
  lemma MergeMatchingKeepsIds(favs: seq<Topic>, id: string, deep: Partial)
    ensures forall i :: 0 <= i < |favs| ==> MergeMatching(favs, id, deep)[i].id == favs[i].id
    ensures IdSet(MergeMatching(favs, id, deep)) == IdSet(favs)
  {
    var r := MergeMatching(favs, id, deep);
    forall x ensures x in IdSet(r) <==> x in IdSet(favs) {
      if x in IdSet(r) {
        var i :| 0 <= i < |r| && r[i].id == x;
        assert favs[i].id == x;
      }
      if x in IdSet(favs) {
        var i :| 0 <= i < |favs| && favs[i].id == x;
        assert r[i].id == x;
      }
    }
  }

  /** Merging a deep-dive result keeps the favorites' identities unique
      (App.tsx:139-144). */
  lemma MergeMatchingUnique(favs: seq<Topic>, id: string, deep: Partial)
    requires UniqueIds(favs)
    ensures UniqueIds(MergeMatching(favs, id, deep))
  {
    MergeMatchingKeepsIds(favs, id, deep);
  }

  /** A second arrival of the same result changes nothing more. */
  lemma MergeMatchingIdempotent(favs: seq<Topic>, id: string, deep: Partial)
    ensures MergeMatching(MergeMatching(favs, id, deep), id, deep) == MergeMatching(favs, id, deep)
  {
    var once := MergeMatching(favs, id, deep);
    var twice := MergeMatching(once, id, deep);
    forall i | 0 <= i < |favs| ensures twice[i] == once[i] {
      if favs[i].id == id {
        assert once[i].fields + deep == once[i].fields;
      }
    }
  }

  /** The selected topic after a deep-dive result for identity `id` arrived. */
  function MergeSelection(sel: Option<Topic>, id: string, deep: Partial): (r: Option<Topic>)
    ensures sel.Some? && sel.value.id == id ==> r == Some(Merge(sel.value, deep))
    ensures !(sel.Some? && sel.value.id == id) ==> r == sel
  {
    if sel.Some? && sel.value.id == id then Some(Merge(sel.value, deep)) else sel
  }

  /** `!query.trim()`: the query holds nothing but white space. */
  function IsBlankQuery(q: string): (b: bool)
    ensures b <==> Blank(q)
  {
    BlankIffAllSpace(q);
    Trim(q) == []
  }

  /** The poller's simulated check: a draw of `Math.random()` above 0.3
      reports new content. */
  predicate HasNewContent(roll: real)
  {
    roll > 0.3
  }

  /** Everything a session holds that the user can observe. */
  datatype SessionState = SessionState(
    viewState: ViewState,
    selectedTopic: Option<Topic>,
    profile: Profile,
    readHistory: seq<Topic>,
    favorites: seq<Topic>,
    searchQuery: string,
    isSearching: bool,
    searchError: Option<string>,
    topics: seq<Topic>,
    lastRefresh: nat,
    refreshing: bool,
    pendingUpdates: nat)

  /** Work that has been started and not yet completed: first-stage searches,
      second-stage searches by the identity of their summary, and refresh
      timeouts. */
  datatype InFlight = InFlight(summaries: nat, deepDives: multiset<string>, refreshes: nat)

  class Session {
    var viewState: ViewState
    var selectedTopic: Option<Topic>
    var profile: Profile
    var readHistory: seq<Topic>
    var favorites: seq<Topic>
    var searchQuery: string
    var isSearching: bool
    var searchError: Option<string>
    var topics: seq<Topic>
    /** The time of the last completed refresh, as a clock reading. */
    var lastRefresh: nat
    var refreshing: bool
    var pendingUpdates: nat
    ghost var work: InFlight

    function State(): SessionState
      reads this
    {
      SessionState(viewState, selectedTopic, profile, readHistory, favorites, searchQuery,
        isSearching, searchError, topics, lastRefresh, refreshing, pendingUpdates)
    }

    /** The favorites hold each identity at most once. */
    predicate Valid()
      reads this
    {
      UniqueIds(favorites)
    }

    /** A fresh session showing the home feed of `catalog`, at clock `now`. */
    constructor(catalog: seq<Topic>, now: nat)
      ensures Valid()
      ensures State() == SessionState(Home, None, InitialProfile, [], [], "", false, None,
        catalog, now, false, 0)
      ensures work == InFlight(0, multiset{}, 0)
    {
      viewState := Home;
      selectedTopic := None;
      profile := InitialProfile;
      readHistory := [];
      favorites := [];
      searchQuery := "";
      isSearching := false;
      searchError := None;
      topics := catalog;
      lastRefresh := now;
      refreshing := false;
      pendingUpdates := 0;
      work := InFlight(0, multiset{}, 0);
    }

    /** Opening a topic: it is appended to the history, counted as an
        outside-cocoon read when it is one, selected and shown. */
    method TopicClick(t: Topic)
      requires Valid()
      modifies this
      ensures Valid()
      ensures State() == old(State()).(
        readHistory := old(readHistory) + [t],
        profile := old(profile).(incentives := CountRead(old(profile).incentives, t)),
        selectedTopic := Some(t),
        viewState := Detail)
      ensures work == old(work)
    {
      readHistory := readHistory + [t];
      profile := profile.(incentives := CountRead(profile.incentives, t));
      selectedTopic := Some(t);
      viewState := Detail;
    }

    /** Adding or removing a favorite, by identity. */
    method ToggleFavorite(t: Topic)
      requires Valid()
      modifies this
      ensures Valid()
      ensures State() == old(State()).(favorites := Toggled(old(favorites), t))
      ensures work == old(work)
    {
      ToggledUnique(favorites, t);
      favorites := Toggled(favorites, t);
    }

    /** Typing into the search box. */
    method TypeQuery(q: string)
      requires Valid()
      modifies this
      ensures Valid()
      ensures State() == old(State()).(searchQuery := q)
      ensures work == old(work)
    {
      searchQuery := q;
    }

    /** Submitting the search box. A query of nothing but white space is
        ignored; any other query starts the first stage. */
    method BeginSearch() returns (started: bool)
      requires Valid()
      modifies this
      ensures Valid()
      ensures started <==> !Blank(old(searchQuery))
      ensures !started ==> unchanged(this)
      ensures started ==> State() == old(State()).(isSearching := true, searchError := None,
        viewState := Searching)
      ensures started ==> work == old(work).(summaries := old(work).summaries + 1)
    {
      started := !IsBlankQuery(searchQuery);
      if started {
        StartSearch();
      }
    }

    /** The effect of a search that is not ignored: the spinner shows, the
        previous error is cleared and the first stage starts. */
    method StartSearch()
      requires Valid()
      modifies this
      ensures Valid()
      ensures State() == old(State()).(isSearching := true, searchError := None,
        viewState := Searching)
      ensures work == old(work).(summaries := old(work).summaries + 1)
    {
      isSearching, searchError, viewState := true, None, Searching;
      work := work.(summaries := work.summaries + 1);
    }

    /** The first stage produced `summary`: it is recorded as read, selected
        and shown, the query is cleared, and the second stage starts. */
    method SummaryArrived(summary: Topic)
      requires Valid() && work.summaries > 0
      modifies this
      ensures Valid()
      ensures State() == old(State()).(
        readHistory := old(readHistory) + [summary],
        selectedTopic := Some(summary),
        viewState := Detail,
        searchQuery := "",
        isSearching := false)
      ensures work == old(work).(summaries := old(work).summaries - 1,
        deepDives := old(work).deepDives + multiset{summary.id})
    {
      readHistory, selectedTopic, viewState, searchQuery, isSearching :=
        readHistory + [summary], Some(summary), Detail, "", false;
      work := work.(summaries := work.summaries - 1, deepDives := work.deepDives + multiset{summary.id});
    }

    /** The first stage failed: the error is shown on the home view and the
        history is left alone. */
    method SummaryFailed()
      requires Valid() && work.summaries > 0
      modifies this
      ensures Valid()
      ensures State() == old(State()).(
        searchError := Some(SearchFailureText),
        viewState := Home,
        isSearching := false)
      ensures work == old(work).(summaries := old(work).summaries - 1)
    {
      searchError, viewState, isSearching := Some(SearchFailureText), Home, false;
      work := work.(summaries := work.summaries - 1);
    }

    /** The second stage for the summary with identity `id` produced `deep`:
        it is merged into the selected topic when that is still the same
        record, and into every favorite with that identity. The history is
        not touched. */
    method DeepDiveArrived(id: string, deep: Partial)
      requires Valid() && id in work.deepDives
      modifies this
      ensures Valid()
      ensures State() == old(State()).(
        selectedTopic := MergeSelection(old(selectedTopic), id, deep),
        favorites := MergeMatching(old(favorites), id, deep))
      ensures work == old(work).(deepDives := old(work).deepDives - multiset{id})
    {
      MergeMatchingUnique(favorites, id, deep);
      selectedTopic, favorites := MergeSelection(selectedTopic, id, deep), MergeMatching(favorites, id, deep);
      work := work.(deepDives := work.deepDives - multiset{id});
    }

    /** The second stage failed: nothing the user sees changes. */
    method DeepDiveFailed(id: string)
      requires Valid() && id in work.deepDives
      modifies this
      ensures Valid()
      ensures State() == old(State())
      ensures work == old(work).(deepDives := old(work).deepDives - multiset{id})
    {
      work := work.(deepDives := work.deepDives - multiset{id});
    }

    /** The poller's minute timer, with `roll` the draw of `Math.random()`.
        The feed itself is never changed. */
    method Tick(roll: real)
      requires Valid() && 0.0 <= roll < 1.0
      modifies this
      ensures Valid()
      ensures HasNewContent(roll) ==> State() == old(State()).(pendingUpdates := old(pendingUpdates) + 1)
      ensures !HasNewContent(roll) ==> State() == old(State())
      ensures work == old(work)
    {
      if HasNewContent(roll) {
        pendingUpdates := pendingUpdates + 1;
      }
    }

    /** Pressing the refresh button: the busy flag is raised and a timeout
        is started. */
    method BeginRefresh()
      requires Valid()
      modifies this
      ensures Valid()
      ensures State() == old(State()).(refreshing := true)
      ensures work == old(work).(refreshes := old(work).refreshes + 1)
    {
      refreshing := true;
      work := work.(refreshes := work.refreshes + 1);
    }

    /** A refresh timeout fired at clock `now`. */
    method RefreshCompleted(now: nat)
      requires Valid() && work.refreshes > 0
      modifies this
      ensures Valid()
      ensures State() == old(State()).(lastRefresh := now, pendingUpdates := 0, refreshing := false)
      ensures work == old(work).(refreshes := old(work).refreshes - 1)
    {
      lastRefresh, pendingUpdates, refreshing := now, 0, false;
      work := work.(refreshes := work.refreshes - 1);
    }

    /** Going back to the home feed drops the selection. */
    method Back()
      requires Valid()
      modifies this
      ensures Valid()
      ensures State() == old(State()).(viewState := Home, selectedTopic := None)
      ensures work == old(work)
    {
      viewState, selectedTopic := Home, None;
    }

    /** Opening the profile page (the header button, or an upgrade prompt). */
    method OpenProfile()
      requires Valid()
      modifies this
      ensures Valid()
      ensures State() == old(State()).(viewState := ProfileView)
      ensures work == old(work)
    {
      viewState := ProfileView;
    }

    /** Dismissing the search error banner. */
    method DismissError()
      requires Valid()
      modifies this
      ensures Valid()
      ensures State() == old(State()).(searchError := None)
      ensures work == old(work)
    {
      searchError := None;
    }

    /** Saving the profile page's form. */
    method SaveProfile(p: Profile)
      requires Valid()
      modifies this
      ensures Valid()
      ensures State() == old(State()).(profile := p)
      ensures work == old(work)
    {
      profile := p;
    }
  }
}
