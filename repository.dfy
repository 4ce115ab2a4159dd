/**
 * The two repositories over the SQLite tables `player_snapshots` and
 * `advice_responses`. Each table is an in-memory sequence of rows that the
 * save operations only ever extend; the row id is the SQLite rowid, which on
 * a table nobody deletes from is the row's position plus one. The clock is a
 * parameter of the save operations.
 */
module Repository {
  import opened Wrappers

  /** A row of `player_snapshots`. */
  datatype SnapshotRow = SnapshotRow(id: nat, playerTag: string, timestamp: int, rawJson: string, townHallLevel: Option<int>)

  /** A row of `advice_responses`; `warFocus` is stored as the integer 0 or 1. */
  datatype AdviceRow = AdviceRow(id: nat, snapshotId: int, timestamp: int, rawResponse: string, modelUsed: string, warFocus: int)

  /** The default `limit` of `get_snapshot_history`. */
  const DefaultHistoryLimit := 10

  // ---------------------------------------------------------------------------
  // The queries, over the rows of `player_snapshots`.

  /** `filter(player_tag == tag)`: exactly the rows of the tag. */
  function Matching(rows: seq<SnapshotRow>, tag: string): (r: seq<SnapshotRow>)
    ensures forall x :: x in r <==> x in rows && x.playerTag == tag
    ensures multiset(r) <= multiset(rows)
  {
    if rows == [] then []
    else
      var rest := Matching(rows[1..], tag);
      assert rows == [rows[0]] + rows[1..];
      if rows[0].playerTag == tag then [rows[0]] + rest else rest
  }

  /** Newest first: timestamps never increase along the sequence. */
  predicate NewestFirst(s: seq<SnapshotRow>)
  {
    forall i, j :: 0 <= i < j < |s| ==> s[i].timestamp >= s[j].timestamp
  }

  /** A row no older than the head of a newest-first sequence can go in front of it. */
  lemma ConsNewestFirst(y: SnapshotRow, t: seq<SnapshotRow>)
    requires NewestFirst(t)
    requires t == [] || y.timestamp >= t[0].timestamp
    ensures NewestFirst([y] + t)
  {
    var r := [y] + t;
    forall i, j | 0 <= i < j < |r|
      ensures r[i].timestamp >= r[j].timestamp
    {
      assert r[j] == t[j - 1];
      if i > 0 {
        assert r[i] == t[i - 1];
      }
    }
  }

  /** Places `x` before the first row that is not newer than it. */
  function Insert(x: SnapshotRow, s: seq<SnapshotRow>): (r: seq<SnapshotRow>)
    requires NewestFirst(s)
    ensures NewestFirst(r)
    ensures multiset(r) == multiset(s) + multiset{x}
    ensures r[0] == x || (s != [] && r[0] == s[0])
  {
    if s == [] || x.timestamp >= s[0].timestamp then
      ConsNewestFirst(x, s);
      [x] + s
    else
      var rest := Insert(x, s[1..]);
      assert rest[0].timestamp <= s[0].timestamp;
      ConsNewestFirst(s[0], rest);
      assert s == [s[0]] + s[1..];
      [s[0]] + rest
  }

  /** The head of a newest-first sequence is at least as new as every element. */
  lemma HeadIsNewest(s: seq<SnapshotRow>)
    requires NewestFirst(s) && s != []
    ensures forall y :: y in s ==> y.timestamp <= s[0].timestamp
  {
    forall y | y in s
      ensures y.timestamp <= s[0].timestamp
    {
      var j :| 0 <= j < |s| && s[j] == y;
    }
  }

  /**
   * `order_by(timestamp.desc())`. SQL leaves the order of equal timestamps
   * open; this definition fixes one order for them.
   */
  function SortNewestFirst(s: seq<SnapshotRow>): (r: seq<SnapshotRow>)
    ensures NewestFirst(r)
    ensures multiset(r) == multiset(s)
  {
    if s == [] then []
    else
      assert s == [s[0]] + s[1..];
      Insert(s[0], SortNewestFirst(s[1..]))
  }

  /** `.limit(n)`: SQLite reads a negative limit as no limit. */
  function Limit(s: seq<SnapshotRow>, limit: int): (r: seq<SnapshotRow>)
    ensures |r| == if limit < 0 || |s| <= limit then |s| else limit
    ensures r == s[..|r|]
    ensures multiset(r) <= multiset(s)
  {
    if limit < 0 || |s| <= limit then s
    else
      assert s == s[..limit] + s[limit..];
      s[..limit]
  }

  /** `get_snapshot_history(tag, limit)`: the player's rows, newest first, at most `limit` of them. */
  function History(rows: seq<SnapshotRow>, tag: string, limit: int): (r: seq<SnapshotRow>)
    ensures forall x :: x in r ==> x in rows && x.playerTag == tag
    ensures multiset(r) <= multiset(Matching(rows, tag))
    ensures NewestFirst(r)
    ensures |r| == var n := |Matching(rows, tag)|; if limit < 0 || n <= limit then n else limit
  {
    var m := Matching(rows, tag);
    var sorted := SortNewestFirst(m);
    var r := Limit(sorted, limit);
    assert forall x :: x in r ==> x in m by {
      forall x | x in r
        ensures x in m
      {
        assert x in multiset(r);
      }
    }
    r
  }

  /** `get_latest_snapshot(tag)`: the first row of the newest-first order, if any. */
  function Latest(rows: seq<SnapshotRow>, tag: string): (r: Option<SnapshotRow>)
    ensures r.None? <==> forall x :: x in rows ==> x.playerTag != tag
    ensures r.Some? ==> r.value in rows && r.value.playerTag == tag
    ensures r.Some? ==> forall x :: x in rows && x.playerTag == tag ==> x.timestamp <= r.value.timestamp
  {
    var matching := Matching(rows, tag);
    var sorted := SortNewestFirst(matching);
    assert forall x :: x in matching <==> x in sorted by {
      forall x ensures x in matching <==> x in sorted {
        assert x in matching <==> x in multiset(matching);
        assert x in sorted <==> x in multiset(sorted);
      }
    }
    if sorted == [] then None
    else
      HeadIsNewest(sorted);
      Some(sorted[0])
  }

  /**
   * The history is the newest rows: a matching row left out is no newer than
   * any row returned.
   */
  lemma HistoryIsNewest(rows: seq<SnapshotRow>, tag: string, limit: int, x: SnapshotRow)
    requires x in rows && x.playerTag == tag && x !in History(rows, tag, limit)
    ensures forall y :: y in History(rows, tag, limit) ==> y.timestamp >= x.timestamp
  {
    var sorted := SortNewestFirst(Matching(rows, tag));
    var r := History(rows, tag, limit);
    assert x in multiset(sorted);
    var j :| 0 <= j < |sorted| && sorted[j] == x;
    assert r == sorted[..|r|];
    forall y | y in r
      ensures y.timestamp >= x.timestamp
    {
      var k :| 0 <= k < |r| && r[k] == y;
      assert sorted[k] == y;
    }
  }

  /** With a limit at least the number of matching rows (or no limit), the history is all of them. */
  lemma HistoryComplete(rows: seq<SnapshotRow>, tag: string, limit: int)
    requires limit < 0 || |Matching(rows, tag)| <= limit
    ensures multiset(History(rows, tag, limit)) == multiset(Matching(rows, tag))
  {
  }

  /** The latest snapshot is the head of the history. */
  lemma LatestIsHistoryHead(rows: seq<SnapshotRow>, tag: string, limit: int)
    requires limit != 0
    ensures var h := History(rows, tag, limit);
            Latest(rows, tag) == if h == [] then None else Some(h[0])
  {
  }

  /** `1 if war_focus else 0`. */
  function FocusFlag(warFocus: bool): (f: int)
    ensures f == 0 || f == 1
    ensures f == 1 <==> warFocus
  {
    if warFocus then 1 else 0
  }

  // ---------------------------------------------------------------------------
  // The repositories.

  /** `PlayerRepository` over `player_snapshots`. */
  class PlayerRepository {
    var rows: seq<SnapshotRow>

    ghost predicate Valid()
      reads this
    {
      forall i :: 0 <= i < |rows| ==> rows[i].id == i + 1
    }

    /**
     * `init_db` creates the table only when it is missing, so the repository
     * opens with the rows the database file already holds.
     */
    constructor(existing: seq<SnapshotRow>)
      requires forall i :: 0 <= i < |existing| ==> existing[i].id == i + 1
      ensures Valid() && rows == existing
    {
      rows := existing;
    }

    /** `save_snapshot`: appends one row stamped `now` and returns it with its new id. */
    method SaveSnapshot(playerTag: string, rawJson: string, townHallLevel: Option<int>, now: int) returns (row: SnapshotRow)
      requires Valid()
      modifies this
      ensures Valid()
      ensures row == SnapshotRow(|old(rows)| + 1, playerTag, now, rawJson, townHallLevel)
      ensures rows == old(rows) + [row]
    {
      row := SnapshotRow(|rows| + 1, playerTag, now, rawJson, townHallLevel);
      rows := rows + [row];
    }

    /** `get_latest_snapshot`. */
    method GetLatestSnapshot(playerTag: string) returns (r: Option<SnapshotRow>)
      ensures r == Latest(rows, playerTag)
    {
      r := Latest(rows, playerTag);
    }

    /** `get_snapshot_history`; without a limit, the newest 10 rows. */
    method GetSnapshotHistory(playerTag: string, limit: int := DefaultHistoryLimit) returns (r: seq<SnapshotRow>)
      ensures r == History(rows, playerTag, limit)
    {
      r := History(rows, playerTag, limit);
    }
  }

  /** `AdviceRepository` over `advice_responses`. */
  class AdviceRepository {
    var rows: seq<AdviceRow>

    ghost predicate Valid()
      reads this
    {
      forall i :: 0 <= i < |rows| ==> rows[i].id == i + 1
    }

    /** Opens `advice_responses` with the rows the database file already holds. */
    constructor(existing: seq<AdviceRow>)
      requires forall i :: 0 <= i < |existing| ==> existing[i].id == i + 1
      ensures Valid() && rows == existing
    {
      rows := existing;
    }

    /** `save_advice`: appends one row stamped `now`, the focus flag stored as 0 or 1. */
    method SaveAdvice(snapshotId: int, rawResponse: string, modelUsed: string, warFocus: bool, now: int) returns (row: AdviceRow)
      requires Valid()
      modifies this
      ensures Valid()
      ensures row == AdviceRow(|old(rows)| + 1, snapshotId, now, rawResponse, modelUsed, FocusFlag(warFocus))
      ensures rows == old(rows) + [row]
    {
      var flag := if warFocus then 1 else 0;
      row := AdviceRow(|rows| + 1, snapshotId, now, rawResponse, modelUsed, flag);
      rows := rows + [row];
    }
  }
}
