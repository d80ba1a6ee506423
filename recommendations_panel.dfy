/** The recommendations panel (`RecommendationsPanel`): the status filter,
    the potential savings of the pending items shown, the counts on the
    filter buttons, and the actions offered on pending items only. */
module RecommendationsPanel {
  import opened Common
  import opened CostModel
  import opened CostStore

  /** The `'all' | 'pending' | 'implemented' | 'ignored'` selector. */
  datatype StatusFilter = All | Only(status: Status)

  function Selects(filter: StatusFilter): Recommendation -> bool
  {
    (r: Recommendation) => filter.All? || r.status == filter.status
  }

  function HasStatus(status: Status): Recommendation -> bool
  {
    (r: Recommendation) => r.status == status
  }

  /** `filteredRecommendations`. */
  function FilteredRecommendations(recs: seq<Recommendation>, filter: StatusFilter): seq<Recommendation>
  {
    Filter(recs, Selects(filter))
  }

  function Savings(recs: seq<Recommendation>): (r: seq<real>)
    ensures |r| == |recs|
    ensures forall i :: 0 <= i < |recs| ==> r[i] == recs[i].estimatedSavings
  {
    seq(|recs|, i requires 0 <= i < |recs| => recs[i].estimatedSavings)
  }

  /** `totalSavings`: the savings of the pending items among those shown. */
  function TotalSavings(recs: seq<Recommendation>, filter: StatusFilter): real
  {
    Sum(Savings(Filter(FilteredRecommendations(recs, filter), HasStatus(Pending))))
  }

  /** The count on a filter button. */
  function CountOf(recs: seq<Recommendation>, status: Status): nat
  {
    |Filter(recs, HasStatus(status))|
  }

  /** What the panel shows. */
  datatype Panel =
    | EmptyState
    | Listing(shown: seq<Recommendation>, totalSavings: real, allCount: nat, pendingCount: nat, implementedCount: nat)

  function Render(recs: seq<Recommendation>, filter: StatusFilter): Panel
  {
    if recs == [] then EmptyState
    else Listing(FilteredRecommendations(recs, filter), TotalSavings(recs, filter),
                 |recs|, CountOf(recs, Pending), CountOf(recs, Implemented))
  }

  /** The buttons on an item: "Mark Implemented" and "Ignore" on a pending
      item, none on any other. */
  function Actions(r: Recommendation): seq<Status>
  {
    if r.status == Pending then [Implemented, Ignored] else []
  }

  /** Pressing one of item `i`'s buttons calls the store's
      `updateRecommendationStatus` with the item's id. */
  function Press(recs: seq<Recommendation>, i: nat, action: Status): seq<Recommendation>
    requires i < |recs|
  {
    WithStatus(recs, recs[i].id, action)
  }

  /** The empty state shows exactly when there are no recommendations. */
  lemma EmptyStateIff(recs: seq<Recommendation>, filter: StatusFilter)
    ensures Render(recs, filter) == EmptyState <==> recs == []
  {
  }

  /** "All" shows every item; a status shows exactly the items with that
      status, in their order. */
  lemma FilterSpec(recs: seq<Recommendation>, status: Status) returns (idx: seq<nat>)
    ensures FilteredRecommendations(recs, All) == recs
    ensures var shown := FilteredRecommendations(recs, Only(status));
      |idx| == |shown|
      && (forall j :: 0 <= j < |shown| ==> idx[j] < |recs| && shown[j] == recs[idx[j]] && shown[j].status == status)
      && (forall j, k :: 0 <= j < k < |idx| ==> idx[j] < idx[k])
      && (forall i :: 0 <= i < |recs| && recs[i].status == status ==> i in idx)
  {
    FilterKeepsAll(recs, Selects(All));
    idx := FilterIndices(recs, Selects(Only(status)));
  }

  /** The potential savings count pending items only: the same under "All"
      and "Pending", and zero under "Implemented" and "Ignored". */
  lemma TotalSavingsSpec(recs: seq<Recommendation>)
    ensures TotalSavings(recs, All) == TotalSavings(recs, Only(Pending)) == Sum(Savings(Filter(recs, HasStatus(Pending))))
    ensures TotalSavings(recs, Only(Implemented)) == 0.0
    ensures TotalSavings(recs, Only(Ignored)) == 0.0
  {
    FilterKeepsAll(recs, Selects(All));
    FilterFilter(recs, Selects(Only(Pending)), HasStatus(Pending), HasStatus(Pending));
    NoneSelected(FilteredRecommendations(recs, Only(Implemented)));
    NoneSelected(FilteredRecommendations(recs, Only(Ignored)));
  }

  lemma {:induction false} NoneSelected(recs: seq<Recommendation>)
    requires forall i :: 0 <= i < |recs| ==> recs[i].status != Pending
    ensures Filter(recs, HasStatus(Pending)) == []
  {
    if recs != [] {
      var init := recs[..|recs| - 1];
      assert forall i :: 0 <= i < |init| ==> init[i] == recs[i];
      NoneSelected(init);
    }
  }

  /** Every item has exactly one of the three statuses. */
  lemma {:induction false} CountsPartition(recs: seq<Recommendation>)
    ensures CountOf(recs, Pending) + CountOf(recs, Implemented) + CountOf(recs, Ignored) == |recs|
  {
    if recs != [] {
      CountsPartition(recs[..|recs| - 1]);
    }
  }

  lemma {:induction false} CountZeroIff(recs: seq<Recommendation>, status: Status)
    ensures CountOf(recs, status) == 0 <==> forall i :: 0 <= i < |recs| ==> recs[i].status != status
  {
    if recs != [] {
      var init := recs[..|recs| - 1];
      CountZeroIff(init, status);
      assert forall i :: 0 <= i < |init| ==> init[i] == recs[i];
    }
  }

  /** The "Pending" and "Implemented" counts add up to at most the "All"
      count, and to exactly it when nothing is ignored. */
  lemma CountsSpec(recs: seq<Recommendation>)
    ensures CountOf(recs, Pending) + CountOf(recs, Implemented) <= |recs|
    ensures CountOf(recs, Pending) + CountOf(recs, Implemented) == |recs|
        <==> forall i :: 0 <= i < |recs| ==> recs[i].status != Ignored
  {
    CountsPartition(recs);
    CountZeroIff(recs, Ignored);
  }

  /** Through the panel a status only ever moves from pending to implemented
      or ignored: a button exists only on a pending item and never sets
      pending. When ids are unique, pressing it changes that item's status
      and nothing else. */
  lemma PressOnlyFromPending(recs: seq<Recommendation>, i: nat, action: Status)
    requires i < |recs| && action in Actions(recs[i])
    requires forall j, k :: 0 <= j < k < |recs| ==> recs[j].id != recs[k].id
    ensures recs[i].status == Pending && action != Pending
    ensures |Press(recs, i, action)| == |recs|
    ensures Press(recs, i, action)[i] == recs[i].(status := action)
    ensures forall j :: 0 <= j < |recs| && j != i ==> Press(recs, i, action)[j] == recs[j]
  {
    forall j | 0 <= j < |recs| && j != i ensures recs[j].id != recs[i].id {
      if j < i {
        assert recs[j].id != recs[i].id;
      } else {
        assert recs[i].id != recs[j].id;
      }
    }
  }

  /** When two items share an id, pressing a button on one changes the
      other too, whatever its status. */
  lemma PressSharedId(recs: seq<Recommendation>, i: nat, j: nat, action: Status)
    requires i < |recs| && j < |recs| && recs[i].id == recs[j].id
    ensures Press(recs, i, action)[j].status == action
  {
  }
}
