/** Which orders a cycle asks the platform about, and why none of them waits forever. */
module C5Reconcile {
  import opened Prelude
  import opened C5Ledger

  /** How long (ms) before an order is asked about again: one whose fate is unknown, and one not yet final. */
  const UNKNOWN_RECHECK_MS := 5_000
  const ORDER_RECHECK_MS := 300_000

  /** How many orders a cycle asks about, lest it slow down the watch. */
  const REFRESH_PER_CYCLE: nat := 3

  /** Received, settled. */
  const ORDER_FINAL: set<int> := {10, 200}

  predicate Open(p: Purchase) {
    Counted(p) && !(p.orderStatus.Some? && p.orderStatus.value in ORDER_FINAL)
  }

  predicate Due(p: Purchase, at: int, force: bool) {
    Open(p) && (force || at - p.checkedAt >= if p.status == Unknown then UNKNOWN_RECHECK_MS else ORDER_RECHECK_MS)
  }

  /**
   * An order that counts and is not final is due 5 s after its last check while its fate is unknown, and 5 minutes after
   * it once it is known to have gone through; when forced, at once.
   */
  lemma DueAfter(p: Purchase, at: int, force: bool)
    requires p.mode == Live
    ensures p.status == Failed || p.status == Cancelled || p.orderStatus == Some(10) || p.orderStatus == Some(200) ==> !Due(p, at, force)
    ensures p.orderStatus == None || p.orderStatus.value !in {10, 200} ==>
              && (p.status == Unknown ==> (Due(p, at, force) <==> force || at >= p.checkedAt + 5_000))
              && (p.status == Ok ==> (Due(p, at, force) <==> force || at >= p.checkedAt + 300_000))
  {
  }

  // ----- The selection, as places among the rows -----

  /** The places of the due rows, from place `k` on. */
  function DueFrom(rows: seq<Purchase>, at: int, force: bool, k: nat): (due: seq<nat>)
    requires k <= |rows|
    ensures forall i :: 0 <= i < |due| ==> k <= due[i] < |rows| && Due(rows[due[i]], at, force)
    ensures forall i, j :: 0 <= i < j < |due| ==> due[i] < due[j]
    decreases |rows| - k
  {
    if k == |rows| then []
    else if Due(rows[k], at, force) then [k] + DueFrom(rows, at, force, k + 1)
    else DueFrom(rows, at, force, k + 1)
  }

  lemma {:induction false} DueFromFindsAll(rows: seq<Purchase>, at: int, force: bool, k: nat, i: nat)
    requires k <= i < |rows| && Due(rows[i], at, force)
    ensures i in DueFrom(rows, at, force, k)
    decreases |rows| - k
  {
    if k < i {
      DueFromFindsAll(rows, at, force, k + 1, i);
    }
  }

  ghost predicate Places(rows: seq<Purchase>, s: seq<nat>) {
    forall i :: 0 <= i < |s| ==> s[i] < |rows|
  }

  /** A stable sort by the time of the last check. */
  function Insert(rows: seq<Purchase>, k: nat, sorted: seq<nat>): (longer: seq<nat>)
    requires k < |rows| && Places(rows, sorted)
    ensures Places(rows, longer)
  {
    if sorted == [] || rows[k].checkedAt <= rows[sorted[0]].checkedAt then [k] + sorted
    else [sorted[0]] + Insert(rows, k, sorted[1..])
  }

  function SortByChecked(rows: seq<Purchase>, s: seq<nat>): (sorted: seq<nat>)
    requires Places(rows, s)
    ensures Places(rows, sorted)
  {
    if s == [] then [] else Insert(rows, s[0], SortByChecked(rows, s[1..]))
  }

  lemma {:induction false} InsertPermutes(rows: seq<Purchase>, k: nat, sorted: seq<nat>)
    requires k < |rows| && Places(rows, sorted)
    ensures multiset(Insert(rows, k, sorted)) == multiset(sorted) + multiset{k}
  {
    if sorted != [] && rows[k].checkedAt > rows[sorted[0]].checkedAt {
      InsertPermutes(rows, k, sorted[1..]);
      assert sorted == [sorted[0]] + sorted[1..];
      CountsBehindHead(sorted[0], Insert(rows, k, sorted[1..]), sorted[1..], k);
    }
  }

  lemma {:induction false} SortPermutes(rows: seq<Purchase>, s: seq<nat>)
    requires Places(rows, s)
    ensures multiset(SortByChecked(rows, s)) == multiset(s)
  {
    if s != [] {
      SortPermutes(rows, s[1..]);
      InsertPermutes(rows, s[0], SortByChecked(rows, s[1..]));
      assert s == [s[0]] + s[1..];
    }
  }

  /** Checked longer ago, or just as long ago and placed earlier. */
  predicate Before(rows: seq<Purchase>, j: nat, k: nat)
    requires j < |rows| && k < |rows|
  {
    rows[j].checkedAt < rows[k].checkedAt || (rows[j].checkedAt == rows[k].checkedAt && j < k)
  }

  ghost predicate Ranked(rows: seq<Purchase>, s: seq<nat>)
    requires Places(rows, s)
  {
    forall i, j :: 0 <= i < j < |s| ==> Before(rows, s[i], s[j])
  }

  lemma {:induction false} InsertRanks(rows: seq<Purchase>, k: nat, sorted: seq<nat>)
    requires k < |rows| && Places(rows, sorted) && Ranked(rows, sorted)
    requires forall i :: 0 <= i < |sorted| ==> k < sorted[i]
    ensures Ranked(rows, Insert(rows, k, sorted))
  {
    if sorted != [] && rows[k].checkedAt > rows[sorted[0]].checkedAt {
      var rest := Insert(rows, k, sorted[1..]);
      InsertRanks(rows, k, sorted[1..]);
      InsertPermutes(rows, k, sorted[1..]);
      forall j | 0 <= j < |rest| ensures Before(rows, sorted[0], rest[j]) {
        assert rest[j] in multiset(rest);
        assert rest[j] == k || rest[j] in sorted[1..];
      }
    }
  }

  lemma {:induction false} SortRanks(rows: seq<Purchase>, s: seq<nat>)
    requires Places(rows, s)
    requires forall i, j :: 0 <= i < j < |s| ==> s[i] < s[j]
    ensures Ranked(rows, SortByChecked(rows, s))
  {
    if s != [] {
      var rest := SortByChecked(rows, s[1..]);
      SortRanks(rows, s[1..]);
      SortPermutes(rows, s[1..]);
      forall i | 0 <= i < |rest| ensures s[0] < rest[i] {
        assert rest[i] in multiset(rest);
        assert rest[i] in s[1..];
      }
      InsertRanks(rows, s[0], rest);
    }
  }

  /** The due rows, longest unchecked first, cut at the limit. */
  function Selected(rows: seq<Purchase>, at: int, limit: Option<nat>, force: bool): (selected: seq<nat>)
    ensures Places(rows, selected)
  {
    var sorted := SortByChecked(rows, DueFrom(rows, at, force, 0));
    if limit.Some? && limit.value < |sorted| then sorted[..limit.value] else sorted
  }

  lemma SortedAreDue(rows: seq<Purchase>, at: int, force: bool, s: nat)
    requires s < |SortByChecked(rows, DueFrom(rows, at, force, 0))|
    ensures Due(rows[SortByChecked(rows, DueFrom(rows, at, force, 0))[s]], at, force)
  {
    var due := DueFrom(rows, at, force, 0);
    var sorted := SortByChecked(rows, due);
    SortPermutes(rows, due);
    assert sorted[s] in multiset(sorted);
    assert sorted[s] in due;
  }

  lemma SelectedAreDue(rows: seq<Purchase>, at: int, limit: Option<nat>, force: bool)
    ensures Ranked(rows, Selected(rows, at, limit, force))
    ensures forall s :: 0 <= s < |Selected(rows, at, limit, force)| ==> Due(rows[Selected(rows, at, limit, force)[s]], at, force)
  {
    SortRanks(rows, DueFrom(rows, at, force, 0));
    var selected := Selected(rows, at, limit, force);
    forall s | 0 <= s < |selected| ensures Due(rows[selected[s]], at, force) {
      SortedAreDue(rows, at, force, s);
    }
  }

  lemma PlaceOf(rows: seq<Purchase>, at: int, force: bool, i: nat) returns (place: nat)
    requires i < |rows| && Due(rows[i], at, force)
    ensures place < |SortByChecked(rows, DueFrom(rows, at, force, 0))|
    ensures SortByChecked(rows, DueFrom(rows, at, force, 0))[place] == i
  {
    var due := DueFrom(rows, at, force, 0);
    DueFromFindsAll(rows, at, force, 0, i);
    SortPermutes(rows, due);
    assert i in multiset(SortByChecked(rows, due));
    place :| place < |SortByChecked(rows, due)| && SortByChecked(rows, due)[place] == i;
  }

  /** A due row is passed over only for others that rank before it, as many as the limit allows. */
  lemma PassedOver(rows: seq<Purchase>, at: int, limit: nat, force: bool, i: nat)
    requires i < |rows| && Due(rows[i], at, force) && i !in Selected(rows, at, Some(limit), force)
    ensures |Selected(rows, at, Some(limit), force)| == limit
    ensures forall s :: 0 <= s < limit ==> Before(rows, Selected(rows, at, Some(limit), force)[s], i)
  {
    var place := PlaceOf(rows, at, force, i);
    SortRanks(rows, DueFrom(rows, at, force, 0));
    assert place >= limit;
  }

  lemma DistinctSize(s: seq<nat>) returns (elements: set<nat>)
    requires forall i, j :: 0 <= i < j < |s| ==> s[i] != s[j]
    ensures |elements| == |s| && forall k :: k in elements <==> k in s
  {
    elements := {};
    for i := 0 to |s|
      invariant |elements| == i && forall k :: k in elements <==> k in s[..i]
    {
      elements := elements + {s[i]};
    }
    assert s[..|s|] == s;
  }

  /** The due rows that rank before a row. */
  ghost function DueBefore(rows: seq<Purchase>, at: int, force: bool, i: nat): set<nat>
    requires i < |rows|
  {
    set k | 0 <= k < |rows| && Due(rows[k], at, force) && Before(rows, k, i)
  }

  lemma {:induction false} BeforeIsPlaced(rows: seq<Purchase>, at: int, force: bool, i: nat, place: nat, k: nat)
    requires i < |rows| && Due(rows[i], at, force) && k in DueBefore(rows, at, force, i)
    requires var sorted := SortByChecked(rows, DueFrom(rows, at, force, 0));
             place < |sorted| && sorted[place] == i && Ranked(rows, sorted)
    ensures k in SortByChecked(rows, DueFrom(rows, at, force, 0))[..place]
  {
    var sorted := SortByChecked(rows, DueFrom(rows, at, force, 0));
    var q := PlaceOf(rows, at, force, k);
    assert q < place;
    assert sorted[..place][q] == k;
  }

  lemma {:induction false} PlacedIsBefore(rows: seq<Purchase>, at: int, force: bool, i: nat, place: nat, q: nat)
    requires i < |rows|
    requires var sorted := SortByChecked(rows, DueFrom(rows, at, force, 0));
             q < place < |sorted| && sorted[place] == i && Ranked(rows, sorted)
    ensures SortByChecked(rows, DueFrom(rows, at, force, 0))[q] in DueBefore(rows, at, force, i)
  {
    SortedAreDue(rows, at, force, q);
  }

  lemma {:induction false} RankIsPlace(rows: seq<Purchase>, at: int, force: bool, i: nat, place: nat)
    requires i < |rows| && Due(rows[i], at, force)
    requires place < |SortByChecked(rows, DueFrom(rows, at, force, 0))|
    requires SortByChecked(rows, DueFrom(rows, at, force, 0))[place] == i
    ensures Ranked(rows, SortByChecked(rows, DueFrom(rows, at, force, 0)))
    ensures |DueBefore(rows, at, force, i)| == place
  {
    var sorted := SortByChecked(rows, DueFrom(rows, at, force, 0));
    SortRanks(rows, DueFrom(rows, at, force, 0));
    var elements := DistinctSize(sorted[..place]);
    forall k | k in DueBefore(rows, at, force, i) ensures k in elements {
      BeforeIsPlaced(rows, at, force, i, place, k);
    }
    forall k | k in elements ensures k in DueBefore(rows, at, force, i) {
      var q :| 0 <= q < place && sorted[..place][q] == k;
      PlacedIsBefore(rows, at, force, i, place, q);
    }
    assert elements == DueBefore(rows, at, force, i);
  }

  /** Which rows are asked about, exactly: the due ones before which fewer due ones rank than the limit allows. */
  lemma AskedExactly(rows: seq<Purchase>, at: int, limit: nat, force: bool, i: nat)
    requires i < |rows|
    ensures i in Selected(rows, at, Some(limit), force) <==> Due(rows[i], at, force) && |DueBefore(rows, at, force, i)| < limit
  {
    if !Due(rows[i], at, force) {
      SelectedAreDue(rows, at, Some(limit), force);
      return;
    }
    var place := PlaceOf(rows, at, force, i);
    RankIsPlace(rows, at, force, i, place);
    var sorted := SortByChecked(rows, DueFrom(rows, at, force, 0));
    if place < limit < |sorted| {
      assert sorted[..limit][place] == i;
    }
  }

  // ----- Nobody starves -----

  /** After the selected rows were asked about: each carries the time of this check, and the others are as before. */
  ghost predicate Refreshed(before: seq<Purchase>, after: seq<Purchase>, at: int, selected: seq<nat>) {
    |after| == |before| && forall k :: 0 <= k < |before| ==> RefreshedAt(before, after, at, selected, k)
  }

  ghost predicate RefreshedAt(before: seq<Purchase>, after: seq<Purchase>, at: int, selected: seq<nat>, k: nat)
    requires k < |before| == |after|
  {
    if k in selected then after[k].checkedAt == at else after[k] == before[k]
  }

  ghost predicate CheckedAt(before: seq<Purchase>, after: seq<Purchase>, at: int, k: nat)
    requires k < |before| == |after|
  {
    var p := before[k];
    if p.mode == Live && (p.status == Ok || p.status == Unknown) && p.orderStatus != Some(10) && p.orderStatus != Some(200) then after[k].checkedAt == at
    else after[k] == p
  }

  /** All orders that count and are not final were asked about, and no others. */
  ghost predicate AllChecked(before: seq<Purchase>, after: seq<Purchase>, at: int) {
    |after| == |before| && forall k :: 0 <= k < |before| ==> CheckedAt(before, after, at, k)
  }

  lemma {:induction false} ForcedChecksAll(before: seq<Purchase>, after: seq<Purchase>, at: int)
    requires Refreshed(before, after, at, Selected(before, at, None, true))
    ensures AllChecked(before, after, at)
  {
    var selected := Selected(before, at, None, true);
    SelectedAreDue(before, at, None, true);
    forall k | 0 <= k < |before| ensures CheckedAt(before, after, at, k) {
      assert RefreshedAt(before, after, at, selected, k);
      if Due(before[k], at, true) {
        var place := PlaceOf(before, at, true, k);
        assert selected[place] == k;
      }
    }
  }

  /** The open rows that rank before a row. */
  ghost function Ahead(rows: seq<Purchase>, i: nat): set<nat>
    requires i < |rows|
  {
    set k | 0 <= k < |rows| && Open(rows[k]) && Before(rows, k, i)
  }

  /** A cycle that was not forced and got through the checks; buying, which comes after them, only adds rows. */
  datatype Turn = Turn(before: seq<Purchase>, at: int, refreshed: seq<Purchase>, after: seq<Purchase>) {
    function Asked(): seq<nat> { Selected(before, at, Some(REFRESH_PER_CYCLE), false) }

    ghost predicate Valid() { Refreshed(before, refreshed, at, Asked()) && refreshed <= after }
  }

  /** Of those ranking before a row passed over, the ones asked about fall back behind it. */
  lemma FrontAfter(turn: Turn, i: nat, k: nat)
    requires turn.Valid() && i < |turn.before|
    requires Due(turn.before[i], turn.at, false) && i !in turn.Asked()
    requires k in Ahead(turn.after, i) && k < |turn.before|
    ensures k in Ahead(turn.before, i) && k !in turn.Asked()
  {
    assert RefreshedAt(turn.before, turn.refreshed, turn.at, turn.Asked(), i);
    assert RefreshedAt(turn.before, turn.refreshed, turn.at, turn.Asked(), k);
  }

  /** Three rows leave the front in a cycle that passes a due row over; only new orders can join it. */
  lemma FrontShrinks(turn: Turn, i: nat)
    requires turn.Valid() && i < |turn.before|
    requires Due(turn.before[i], turn.at, false) && i !in turn.Asked()
    ensures turn.after[i] == turn.before[i]
    ensures |Ahead(turn.after, i)| + 3 <= |Ahead(turn.before, i)| + |turn.after| - |turn.before|
  {
    assert RefreshedAt(turn.before, turn.refreshed, turn.at, turn.Asked(), i);
    PassedOver(turn.before, turn.at, REFRESH_PER_CYCLE, false, i);
    SelectedAreDue(turn.before, turn.at, Some(REFRESH_PER_CYCLE), false);
    var asked := DistinctSize(turn.Asked());
    var added := Range(|turn.before|, |turn.after|);
    var front, front' := Ahead(turn.before, i), Ahead(turn.after, i);
    assert asked <= front;
    forall k | k in front' ensures k in (front - asked) + added {
      if k < |turn.before| {
        FrontAfter(turn, i, k);
      }
    }
    SubsetSize(front', (front - asked) + added);
    assert |front - asked| == |front| - |asked|;
  }

  ghost predicate Run(turns: seq<Turn>) {
    && (forall t :: 0 <= t < |turns| ==> turns[t].Valid())
    && (forall t :: 0 <= t < |turns| - 1 ==> turns[t].after == turns[t + 1].before && turns[t].at <= turns[t + 1].at)
  }

  /**
   * A due order is asked about within a third as many cycles as there are open orders ranking before it and orders
   * newly added, and one more.
   */
  lemma {:induction false} NobodyStarves(turns: seq<Turn>, i: nat)
    requires turns != [] && Run(turns) && i < |turns[0].before|
    requires Due(turns[0].before[i], turns[0].at, false)
    requires 3 * |turns| > |Ahead(turns[0].before, i)| + |turns[|turns| - 1].after| - |turns[0].before|
    ensures exists t :: 0 <= t < |turns| && i in turns[t].Asked()
    decreases |turns|
  {
    if i !in turns[0].Asked() {
      FrontShrinks(turns[0], i);
      if |turns| > 1 {
        NobodyStarves(turns[1..], i);
        var t :| 0 <= t < |turns[1..]| && i in turns[1..][t].Asked();
        assert turns[t + 1] == turns[1..][t];
      }
    }
  }

  /** The other side: orders just written have never been checked, and three of them keep the rest waiting. */
  lemma NewOrdersGoFirst(rows: seq<Purchase>, at: int, newer: set<nat>, i: nat)
    requires i < |rows| && Due(rows[i], at, false) && |newer| >= 3
    requires forall k :: k in newer ==> k < |rows| && Due(rows[k], at, false) && rows[k].checkedAt == 0 < rows[i].checkedAt
    ensures i !in Selected(rows, at, Some(REFRESH_PER_CYCLE), false)
  {
    assert newer <= DueBefore(rows, at, false, i);
    SubsetSize(newer, DueBefore(rows, at, false, i));
    AskedExactly(rows, at, REFRESH_PER_CYCLE, false, i);
  }
}
