/**
 * The leaderboard page (index.js:438-473): the query's rows are walked in
 * order, rows whose member lookup fails are skipped, and the kept rows are
 * numbered 1, 2, 3, ... The member lookup is given as a directory from user
 * id to user name; a user id missing from it is a failed fetch.
 */
module Ranking {
  import opened Cards
  import opened Store

  /** One printed line: rank, user name, count and card name (text formatting not modelled). */
  datatype BoardLine = BoardLine(rank: nat, username: string, count: nat, cardName: string)

  /** The rows whose member fetch succeeds, in query order. */
  function Kept(rows: seq<BoardRow>, directory: map<string, string>): (kept: seq<BoardRow>)
    ensures |kept| <= |rows|
    ensures forall i :: 0 <= i < |kept| ==> kept[i].user in directory
    ensures forall r :: r in kept <==> r in rows && r.user in directory
    decreases |rows|
  {
    if rows == [] then []
    else
      var last := rows[|rows| - 1];
      Kept(rows[..|rows| - 1], directory) + (if last.user in directory then [last] else [])
  }

  /** The lines for the kept rows: the i-th kept row gets rank i + 1. */
  function Numbered(kept: seq<BoardRow>, directory: map<string, string>): (lines: seq<BoardLine>)
    requires forall i :: 0 <= i < |kept| ==> kept[i].user in directory
    ensures |lines| == |kept|
  {
    seq(|kept|, i requires 0 <= i < |kept| =>
      BoardLine(i + 1, directory[kept[i].user], kept[i].count, CardNameOr(kept[i].card)))
  }

  /**
   * The loop over the query rows: a failed member fetch skips the row without
   * using up a rank; every kept row is printed with the next rank.
   */
  method RankLines(rows: seq<BoardRow>, directory: map<string, string>) returns (lines: seq<BoardLine>)
    ensures lines == Numbered(Kept(rows, directory), directory)
  {
    var rank := 1;
    lines := [];
    for idx := 0 to |rows|
      invariant rank == |lines| + 1
      invariant lines == Numbered(Kept(rows[..idx], directory), directory)
    {
      var row := rows[idx];
      RankStep(rows, directory, idx);
      if row.user !in directory {
        continue;
      }
      var cardName := CardNameOr(row.card);
      lines := lines + [BoardLine(rank, directory[row.user], row.count, cardName)];
      rank := rank + 1;
    }
    assert rows[..|rows|] == rows;
  }

  /** One more query row adds its line, with the next rank, exactly when its member is found. */
  lemma RankStep(rows: seq<BoardRow>, directory: map<string, string>, idx: nat)
    requires idx < |rows|
    ensures var before := Kept(rows[..idx], directory);
            var row := rows[idx];
            Numbered(Kept(rows[..idx + 1], directory), directory)
            == Numbered(before, directory)
               + (if row.user in directory
                  then [BoardLine(|before| + 1, directory[row.user], row.count, CardNameOr(row.card))]
                  else [])
  {
    KeptStep(rows, directory, idx);
    if rows[idx].user in directory {
      NumberedStep(Kept(rows[..idx], directory), rows[idx], directory);
    }
  }

  /** One more query row adds itself to the kept rows when its member is found. */
  lemma KeptStep(rows: seq<BoardRow>, directory: map<string, string>, idx: nat)
    requires idx < |rows|
    ensures Kept(rows[..idx + 1], directory)
            == Kept(rows[..idx], directory) + (if rows[idx].user in directory then [rows[idx]] else [])
  {
    assert rows[..idx + 1][..idx] == rows[..idx];
  }

  /** Numbering one more kept row appends its line with the next rank. */
  lemma NumberedStep(kept: seq<BoardRow>, row: BoardRow, directory: map<string, string>)
    requires forall i :: 0 <= i < |kept| ==> kept[i].user in directory
    requires row.user in directory
    ensures Numbered(kept + [row], directory)
            == Numbered(kept, directory) + [BoardLine(|kept| + 1, directory[row.user], row.count, CardNameOr(row.card))]
  {
    var a := Numbered(kept + [row], directory);
    var b := Numbered(kept, directory) + [BoardLine(|kept| + 1, directory[row.user], row.count, CardNameOr(row.card))];
    assert |a| == |b|;
    forall i | 0 <= i < |a| ensures a[i] == b[i] {
      if i < |kept| {
        assert (kept + [row])[i] == kept[i];
      }
    }
  }

  /** Ranks run 1, 2, 3, ... over the printed lines, with no gap for skipped rows. */
  lemma RanksConsecutive(kept: seq<BoardRow>, directory: map<string, string>, i: nat)
    requires forall j :: 0 <= j < |kept| ==> kept[j].user in directory
    requires i < |kept|
    ensures Numbered(kept, directory)[i].rank == i + 1
    ensures Numbered(kept, directory)[i].count == kept[i].count
  {
  }

  /** Kept rows come in the query's order: the kept list is the rows with the skipped ones taken out. */
  lemma {:induction false} KeptPreservesOrder(rows: seq<BoardRow>, directory: map<string, string>)
    requires forall i, j :: 0 <= i < j < |rows| ==> rows[i].count >= rows[j].count
    ensures forall i, j :: 0 <= i < j < |Kept(rows, directory)| ==>
              Kept(rows, directory)[i].count >= Kept(rows, directory)[j].count
    decreases |rows|
  {
    if rows != [] {
      var init := rows[..|rows| - 1];
      var last := rows[|rows| - 1];
      KeptPreservesOrder(init, directory);
      var k0 := Kept(init, directory);
      var kept := Kept(rows, directory);
      assert kept == k0 + (if last.user in directory then [last] else []);
      forall i, j | 0 <= i < j < |kept| ensures kept[i].count >= kept[j].count {
        if j < |k0| {
          assert kept[i] == k0[i] && kept[j] == k0[j];
          assert k0[i].count >= k0[j].count;
        } else {
          assert kept[i] == k0[i] && kept[j] == last;
          assert k0[i] in init;
          var m :| 0 <= m < |init| && init[m] == k0[i];
          assert rows[m] == init[m];
          assert rows[m].count >= rows[|rows| - 1].count;
        }
      }
    }
  }

  /** Where each kept row stands in the query result. */
  function KeptPositions(rows: seq<BoardRow>, directory: map<string, string>): (pos: seq<nat>)
    ensures |pos| == |Kept(rows, directory)|
    decreases |rows|
  {
    if rows == [] then []
    else
      var n := |rows| - 1;
      KeptPositions(rows[..n], directory) + (if rows[n].user in directory then [n] else [])
  }

  /**
   * Kept rows come in the query's order: each kept row is the query row at its
   * position, and the positions strictly increase, so the kept list is the
   * query rows with the skipped ones taken out.
   */
  lemma {:induction false} KeptInQueryOrder(rows: seq<BoardRow>, directory: map<string, string>)
    ensures forall i :: 0 <= i < |KeptPositions(rows, directory)| ==>
              KeptPositions(rows, directory)[i] < |rows|
              && Kept(rows, directory)[i] == rows[KeptPositions(rows, directory)[i]]
    ensures forall i, j :: 0 <= i < j < |KeptPositions(rows, directory)| ==>
              KeptPositions(rows, directory)[i] < KeptPositions(rows, directory)[j]
    decreases |rows|
  {
    if rows != [] {
      var n := |rows| - 1;
      var init := rows[..n];
      KeptInQueryOrder(init, directory);
      var before := KeptPositions(init, directory);
      var k0 := Kept(init, directory);
      var pos := KeptPositions(rows, directory);
      var kept := Kept(rows, directory);
      assert pos == before + (if rows[n].user in directory then [n] else []);
      assert kept == k0 + (if rows[n].user in directory then [rows[n]] else []);
      forall i | 0 <= i < |pos| ensures pos[i] < |rows| && kept[i] == rows[pos[i]] {
        if i < |before| {
          assert pos[i] == before[i] && kept[i] == k0[i];
          assert init[before[i]] == rows[before[i]];
        }
      }
      forall i, j | 0 <= i < j < |pos| ensures pos[i] < pos[j] {
        if j < |before| {
          assert pos[i] == before[i] && pos[j] == before[j];
        } else {
          assert pos[i] == before[i];
        }
      }
    }
  }

  /** Every row is kept when every member fetch succeeds. */
  lemma {:induction false} AllFoundKeepsAll(rows: seq<BoardRow>, directory: map<string, string>)
    requires forall i :: 0 <= i < |rows| ==> rows[i].user in directory
    ensures Kept(rows, directory) == rows
    decreases |rows|
  {
    if rows != [] {
      var init := rows[..|rows| - 1];
      AllFoundKeepsAll(init, directory);
      assert rows[|rows| - 1].user in directory;
      var last := rows[|rows| - 1];
      assert Kept(rows, directory) == Kept(init, directory) + [last];
      assert init + [last] == rows;
    }
  }

  /**
   * The limit is applied before the skip: a page built from a query of
   * `limit` rows never has more than `limit` lines, and it has fewer as soon
   * as one of those rows' members cannot be fetched, however many further
   * rows the guild holds.
   */
  lemma {:induction false} SkippedRowsShortenPage(rows: seq<BoardRow>, directory: map<string, string>, i: nat)
    requires i < |rows| && rows[i].user !in directory
    ensures |Kept(rows, directory)| < |rows|
    decreases |rows|
  {
    var init := rows[..|rows| - 1];
    if i < |rows| - 1 {
      SkippedRowsShortenPage(init, directory, i);
    }
  }
}
