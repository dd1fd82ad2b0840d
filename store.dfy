/**
 * The progress store: the `stamps` and `user_cards` tables (index.js:159-217)
 * as two maps, and the prepared statements as methods that read or change
 * them. SQLite itself is not modelled; the timestamp of an upsert is passed in.
 */
module Store {
  import opened Wrappers
  import opened Cards

  /** Primary key of `stamps`: (guild_id, user_id, card_id). */
  datatype StampKey = StampKey(guild: string, user: string, card: CardId)

  /** The non-key columns of `stamps`. */
  datatype StampRow = StampRow(count: nat, updatedAt: int)

  /** Primary key of `user_cards`, and the identity of a guild member. */
  datatype MemberKey = MemberKey(guild: string, user: string)

  /** A row of the leaderboard query: `SELECT user_id, card_id, count`. */
  datatype BoardRow = BoardRow(user: string, card: CardId, count: nat)

  /** `row?.count || 0`: the stored count, or 0 when there is no row. */
  function CountOf(stamps: map<StampKey, StampRow>, k: StampKey): (n: nat)
    ensures k !in stamps ==> n == 0
    ensures k in stamps ==> n == stamps[k].count
  {
    if k in stamps then stamps[k].count else 0
  }

  /** The keys of one guild's rows. */
  function GuildKeys(stamps: map<StampKey, StampRow>, g: string): (keys: set<StampKey>)
    ensures forall k :: k in keys <==> k in stamps && k.guild == g
  {
    set k | k in stamps && k.guild == g
  }

  /** What `DELETE FROM stamps WHERE guild_id=?` leaves. */
  function WithoutGuild(stamps: map<StampKey, StampRow>, g: string): (r: map<StampKey, StampRow>)
    ensures forall k :: k in r <==> k in stamps && k.guild != g
    ensures forall k :: k in r ==> r[k] == stamps[k]
  {
    map k | k in stamps && k.guild != g :: stamps[k]
  }

  /** `ORDER BY count DESC, updated_at ASC`: `a` comes strictly before `b`. */
  predicate RanksBefore(a: StampRow, b: StampRow) {
    a.count > b.count || (a.count == b.count && a.updatedAt < b.updatedAt)
  }

  /**
   * The query's order is a strict order on rows: never both ways, transitive,
   * and any two rows that differ in count or update time are ordered.
   */
  lemma RanksBeforeStrictOrder(a: StampRow, b: StampRow, c: StampRow)
    ensures !RanksBefore(a, a)
    ensures RanksBefore(a, b) ==> !RanksBefore(b, a)
    ensures RanksBefore(a, b) && RanksBefore(b, c) ==> RanksBefore(a, c)
    ensures (a.count, a.updatedAt) != (b.count, b.updatedAt) ==> RanksBefore(a, b) || RanksBefore(b, a)
  {
  }

  /** The key a leaderboard row of guild `g` was read from. */
  function RowKey(g: string, row: BoardRow): StampKey {
    StampKey(g, row.user, row.card)
  }

  function Min(a: int, b: int): int {
    if a < b then a else b
  }

  /** The keys the rows of a guild-`g` leaderboard were read from, in row order. */
  function KeysOf(g: string, rows: seq<BoardRow>): (ks: seq<StampKey>)
    ensures |ks| == |rows|
    ensures forall i :: 0 <= i < |rows| ==> ks[i] == RowKey(g, rows[i])
  {
    seq(|rows|, i requires 0 <= i < |rows| => RowKey(g, rows[i]))
  }

  /** `ks` lists keys of `stamps` in ranking order: no later key ranks before an earlier one. */
  ghost predicate Ranked(stamps: map<StampKey, StampRow>, ks: seq<StampKey>)
    requires forall i :: 0 <= i < |ks| ==> ks[i] in stamps
  {
    forall i, j :: 0 <= i < j < |ks| ==> !RanksBefore(stamps[ks[j]], stamps[ks[i]])
  }

  /**
   * `rows` is an answer to the leaderboard query for guild `g` with `LIMIT limit`:
   * as many rows as the limit allows, each read from a distinct row of the
   * guild with its count, in ranking order, and every row of the guild that
   * ranks before a row taken was taken before it. Rows that tie on both count
   * and time may come in either order, as in SQL.
   */
  ghost predicate IsTopRows(stamps: map<StampKey, StampRow>, g: string, limit: nat, rows: seq<BoardRow>) {
    var ks := KeysOf(g, rows);
    && |rows| == Min(limit, |GuildKeys(stamps, g)|)
    && (forall i :: 0 <= i < |rows| ==> ks[i] in stamps && stamps[ks[i]].count == rows[i].count)
    && (forall i, j :: 0 <= i < j < |rows| ==> ks[i] != ks[j])
    && Ranked(stamps, ks)
    && (forall k, i :: k in stamps && k.guild == g && 0 <= i < |rows| && RanksBefore(stamps[k], stamps[ks[i]])
          ==> k in ks[..i])
  }

  /** A row of `keys` that no other row of `keys` ranks before. */
  method FirstRanked(stamps: map<StampKey, StampRow>, keys: set<StampKey>) returns (best: StampKey)
    requires keys != {} && keys <= stamps.Keys
    ensures best in keys
    ensures forall k :: k in keys ==> !RanksBefore(stamps[k], stamps[best])
  {
    best :| best in keys;
    var rest := keys - {best};
    while rest != {}
      invariant rest <= keys && best in keys && best !in rest
      invariant forall k :: k in keys && k !in rest ==> !RanksBefore(stamps[k], stamps[best])
      decreases |rest|
    {
      var k :| k in rest;
      if RanksBefore(stamps[k], stamps[best]) {
        best := k;
      }
      rest := rest - {k};
    }
  }

  class ProgressStore {
    var stamps: map<StampKey, StampRow>
    var userCards: map<MemberKey, CardId>

    /** Both tables start out empty (`CREATE TABLE IF NOT EXISTS` on a new file). */
    constructor ()
      ensures stamps == map[] && userCards == map[]
    {
      stamps := map[];
      userCards := map[];
    }

    /** `getCountStmt.get(...)?.count`: the stored count, if there is a row. */
    method GetCount(g: string, u: string, c: CardId) returns (count: Option<nat>)
      ensures StampKey(g, u, c) in stamps ==> count == Some(stamps[StampKey(g, u, c)].count)
      ensures StampKey(g, u, c) !in stamps ==> count == None
    {
      var k := StampKey(g, u, c);
      count := if k in stamps then Some(stamps[k].count) else None;
    }

    /** `upsertStmt.run`: insert the row, or overwrite count and updated_at of the existing one. */
    method Upsert(g: string, u: string, c: CardId, count: nat, now: int)
      modifies this
      ensures stamps == old(stamps)[StampKey(g, u, c) := StampRow(count, now)]
      ensures userCards == old(userCards)
    {
      stamps := stamps[StampKey(g, u, c) := StampRow(count, now)];
    }

    /** `deleteStmt.run`: remove the one row, if there is one. */
    method Delete(g: string, u: string, c: CardId)
      modifies this
      ensures stamps == old(stamps) - {StampKey(g, u, c)}
      ensures userCards == old(userCards)
    {
      stamps := stamps - {StampKey(g, u, c)};
    }

    /** `resetGuildStmt.run`: remove every row of the guild. */
    method ResetGuild(g: string)
      modifies this
      ensures stamps == WithoutGuild(old(stamps), g)
      ensures userCards == old(userCards)
    {
      stamps := map k | k in stamps && k.guild != g :: stamps[k];
    }

    /** `getCardStmt.get(...)?.card_id`: the saved selection, if any. */
    method GetCard(g: string, u: string) returns (card: Option<CardId>)
      ensures MemberKey(g, u) in userCards ==> card == Some(userCards[MemberKey(g, u)])
      ensures MemberKey(g, u) !in userCards ==> card == None
    {
      var k := MemberKey(g, u);
      card := if k in userCards then Some(userCards[k]) else None;
    }

    /** `setCardStmt.run`: insert or overwrite the member's selection. */
    method SetCard(g: string, u: string, c: CardId)
      modifies this
      ensures userCards == old(userCards)[MemberKey(g, u) := c]
      ensures stamps == old(stamps)
    {
      userCards := userCards[MemberKey(g, u) := c];
    }

    /**
     * `leaderboardStmt.all(g, limit)`: the guild's rows by count descending,
     * then updated_at ascending, at most `limit` of them. Computed by taking
     * the first-ranked remaining row until the limit or the rows run out.
     */
    method Leaderboard(g: string, limit: nat) returns (rows: seq<BoardRow>)
      ensures IsTopRows(stamps, g, limit, rows)
    {
      var table := stamps;
      var all := GuildKeys(table, g);
      var remaining := all;
      var picked: seq<StampKey> := [];
      while |picked| < limit && remaining != {}
        invariant PartialTop(table, all, remaining, picked)
        invariant |picked| <= limit
        decreases |remaining|
      {
        var k := FirstRanked(table, remaining);
        PickStep(table, all, remaining, picked, k);
        picked := picked + [k];
        remaining := remaining - {k};
      }
      rows := seq(|picked|, i requires 0 <= i < |picked| =>
        BoardRow(picked[i].user, picked[i].card, table[picked[i]].count));
      PickedIsTop(table, g, limit, all, remaining, picked, rows);
    }
  }

  /**
   * The state of the leaderboard query part way: `picked` lists distinct rows
   * of `all` in ranking order, `remaining` holds the rest, and nothing
   * remaining ranks before anything picked.
   */
  ghost predicate PartialTop(stamps: map<StampKey, StampRow>, all: set<StampKey>,
                             remaining: set<StampKey>, picked: seq<StampKey>) {
    && all <= stamps.Keys
    && remaining <= all
    && |picked| + |remaining| == |all|
    && (forall i :: 0 <= i < |picked| ==> picked[i] in all && picked[i] !in remaining)
    && (forall k :: k in all && k !in remaining ==> k in picked)
    && (forall i, j :: 0 <= i < j < |picked| ==> picked[i] != picked[j])
    && (forall i, j :: 0 <= i < j < |picked| ==> !RanksBefore(stamps[picked[j]], stamps[picked[i]]))
    && (forall k, i :: k in remaining && 0 <= i < |picked| ==> !RanksBefore(stamps[k], stamps[picked[i]]))
  }

  /** Taking a first-ranked remaining row keeps the query's invariant. */
  lemma PickStep(stamps: map<StampKey, StampRow>, all: set<StampKey>,
                 remaining: set<StampKey>, picked: seq<StampKey>, k: StampKey)
    requires PartialTop(stamps, all, remaining, picked)
    requires k in remaining
    requires forall j :: j in remaining ==> !RanksBefore(stamps[j], stamps[k])
    ensures PartialTop(stamps, all, remaining - {k}, picked + [k])
  {
    var p := picked + [k];
    forall i, j | 0 <= i < j < |p| ensures !RanksBefore(stamps[p[j]], stamps[p[i]]) {
      if j == |picked| {
        assert p[j] == k && p[i] == picked[i];
      }
    }
  }

  /** When the query stops, its picked rows answer the query. */
  lemma PickedIsTop(stamps: map<StampKey, StampRow>, g: string, limit: nat, all: set<StampKey>,
                    remaining: set<StampKey>, picked: seq<StampKey>, rows: seq<BoardRow>)
    requires all == GuildKeys(stamps, g)
    requires PartialTop(stamps, all, remaining, picked)
    requires |picked| <= limit && (|picked| == limit || remaining == {})
    requires |rows| == |picked|
    requires forall i :: 0 <= i < |rows| ==> rows[i] == BoardRow(picked[i].user, picked[i].card, stamps[picked[i]].count)
    ensures IsTopRows(stamps, g, limit, rows)
  {
    assert KeysOf(g, rows) == picked;
    forall k, i | k in stamps && k.guild == g && 0 <= i < |rows| && RanksBefore(stamps[k], stamps[picked[i]])
      ensures k in picked[..i]
    {
      var j :| 0 <= j < |picked| && picked[j] == k;
      assert j < i;
    }
  }

  /** The query's rows come by count, highest first. */
  lemma TopRowsDescending(stamps: map<StampKey, StampRow>, g: string, limit: nat, rows: seq<BoardRow>)
    requires IsTopRows(stamps, g, limit, rows)
    ensures forall i, j :: 0 <= i < j < |rows| ==> rows[i].count >= rows[j].count
  {
    var ks := KeysOf(g, rows);
    forall i, j | 0 <= i < j < |rows| ensures rows[i].count >= rows[j].count {
      assert !RanksBefore(stamps[ks[j]], stamps[ks[i]]);
    }
  }

  /** Among rows with equal counts, the query puts the one updated earlier first. */
  lemma TopRowsTieBreak(stamps: map<StampKey, StampRow>, g: string, limit: nat, rows: seq<BoardRow>, i: nat, j: nat)
    requires IsTopRows(stamps, g, limit, rows)
    requires i < j < |rows| && rows[i].count == rows[j].count
    ensures stamps[RowKey(g, rows[i])].updatedAt <= stamps[RowKey(g, rows[j])].updatedAt
  {
    var ks := KeysOf(g, rows);
    assert !RanksBefore(stamps[ks[j]], stamps[ks[i]]);
  }

  /** After a delete the key reads as 0 and every other key reads as before. */
  lemma DeleteReadsZero(stamps: map<StampKey, StampRow>, k: StampKey, other: StampKey)
    requires other != k
    ensures CountOf(stamps - {k}, k) == 0
    ensures CountOf(stamps - {k}, other) == CountOf(stamps, other)
  {
  }

  /** An upsert changes what only its own key reads. */
  lemma UpsertReads(stamps: map<StampKey, StampRow>, k: StampKey, count: nat, now: int, other: StampKey)
    requires other != k
    ensures CountOf(stamps[k := StampRow(count, now)], k) == count
    ensures CountOf(stamps[k := StampRow(count, now)], other) == CountOf(stamps, other)
  {
  }

  /** After a guild reset every key of that guild reads 0 and other guilds read as before. */
  lemma ResetGuildReads(stamps: map<StampKey, StampRow>, g: string, k: StampKey)
    ensures k.guild == g ==> CountOf(WithoutGuild(stamps, g), k) == 0
    ensures k.guild != g ==> CountOf(WithoutGuild(stamps, g), k) == CountOf(stamps, k)
    ensures GuildKeys(WithoutGuild(stamps, g), g) == {}
  {
  }

  /** A guild reset leaves every other guild's rows exactly as they were. */
  lemma ResetGuildIsolated(stamps: map<StampKey, StampRow>, g: string, h: string)
    requires h != g
    ensures GuildKeys(WithoutGuild(stamps, g), h) == GuildKeys(stamps, h)
    ensures forall k :: k in GuildKeys(stamps, h) ==> WithoutGuild(stamps, g)[k] == stamps[k]
  {
  }
}
