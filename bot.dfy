/**
 * The `/stamp` interaction handler (index.js:429-643), one method per
 * subcommand, over the progress store, the reward role's holders and the
 * posts made to the log and completed channels. Discord itself is not
 * modelled: the member fetch is a given answer, role calls succeed and are
 * recorded, posts are recorded as data, replies are returned as data.
 */
module Bot {
  import opened Wrappers
  import opened Cards
  import opened Render
  import opened Permissions
  import opened Store
  import opened Progress
  import opened Ranking

  /** What a transcript entry says was done. */
  datatype Action =
    | Added(amount: nat, from: nat, to: nat)
    | Removed(amount: nat, from: nat, to: nat)
    | ResetFrom(was: nat)

  /** A message sent to the log channel or the completed channel, with its card image. */
  datatype Post =
    | Transcript(member: MemberKey, actor: string, card: CardId, action: Action, total: nat, image: CardImage)
    | Completed(member: MemberKey, actor: string, card: CardId, total: nat, image: CardImage)
    | ResetAllLog(guild: string, actor: string)

  /** The reply to the interaction (its text is not modelled). */
  datatype Reply =
    | NoStampsYet
    | Board(lines: seq<BoardLine>)
    | UnknownCardChoice
    | CardSaved(cardName: string)
    | InvalidSavedCard
    | CardView(user: string, cardName: string, count: nat, image: CardImage)
    | OwnerOrAdminOnly
    | ServerReset
    | NoPermission
    | MemberNotFound
    | TargetInvalidCard
    | ResetDone(user: string, cardName: string)
    | NowHas(user: string, count: nat, cardName: string)

  /** `leaderboardStmt.all(guildId, 10)`. */
  const LeaderboardLimit: nat := 10

  /**
   * The posts an add or remove makes, in order: the "completed" post when the
   * goal was crossed upward and that channel is set, then the transcript when
   * the log channel is set; both carry the card rendered at the new count.
   */
  function AdjustPosts(completedChannel: bool, logChannel: bool, goal: int, op: Adjustment,
                       m: MemberKey, actor: string, card: CardId, amount: nat, current: nat, next: nat): seq<Post>
    requires IsCard(card)
  {
    (if completedChannel && Completes(op, current, next, goal)
     then [Completed(m, actor, card, next, Rendered(card, next))] else [])
    + (if logChannel
       then [Transcript(m, actor, card, if op == Add then Added(amount, current, next) else Removed(amount, current, next),
                        next, Rendered(card, next))]
       else [])
  }

  /**
   * A "completed" post is among an add's or remove's posts exactly when the
   * completed channel is set and the step was an add from below the goal to
   * at least the goal; it is then the first post, showing the new count.
   */
  lemma CompletedPostExactly(completedChannel: bool, logChannel: bool, goal: int, op: Adjustment,
                             m: MemberKey, actor: string, card: CardId, amount: nat, current: nat)
    requires IsCard(card)
    ensures var next := NextCount(op, current, amount);
            var posts := AdjustPosts(completedChannel, logChannel, goal, op, m, actor, card, amount, current, next);
            && ((exists i :: 0 <= i < |posts| && posts[i].Completed?)
                <==> completedChannel && op == Add && current < goal <= current + amount)
            && (|posts| > 0 && posts[0].Completed? ==> posts[0].total == next >= goal)
  {
    var next := NextCount(op, current, amount);
    var posts := AdjustPosts(completedChannel, logChannel, goal, op, m, actor, card, amount, current, next);
    if completedChannel && Completes(op, current, next, goal) {
      assert posts[0].Completed?;
    }
  }

  /** Every transcript shows the card at the count it reports. */
  lemma TranscriptShowsCount(completedChannel: bool, logChannel: bool, goal: int, op: Adjustment,
                             m: MemberKey, actor: string, card: CardId, amount: nat, current: nat, i: nat)
    requires IsCard(card)
    requires i < |AdjustPosts(completedChannel, logChannel, goal, op, m, actor, card, amount, current, NextCount(op, current, amount))|
    ensures var p := AdjustPosts(completedChannel, logChannel, goal, op, m, actor, card, amount, current, NextCount(op, current, amount))[i];
            !p.ResetAllLog? && p.total == NextCount(op, current, amount) && |p.image.stamps| <= p.total
  {
  }

  /**
   * The leaderboard page lists counts highest first, numbered 1, 2, 3, ...
   * and holds at most ten lines, whatever the number of rows in the guild.
   * Line i is the i-th kept row, and of two kept rows with the same count the
   * one updated earlier comes first, as the query ordered them.
   */
  lemma LeaderboardPageOrdered(stamps: map<StampKey, StampRow>, g: string, rows: seq<BoardRow>, directory: map<string, string>)
    requires IsTopRows(stamps, g, LeaderboardLimit, rows)
    ensures var lines := Numbered(Kept(rows, directory), directory);
            && |lines| <= LeaderboardLimit
            && (forall i :: 0 <= i < |lines| ==> lines[i].rank == i + 1)
            && (forall i, j :: 0 <= i < j < |lines| ==> lines[i].count >= lines[j].count)
    ensures var kept := Kept(rows, directory);
            var lines := Numbered(kept, directory);
            forall i :: 0 <= i < |lines| ==> lines[i].count == kept[i].count
    ensures var kept := Kept(rows, directory);
            forall i, j :: 0 <= i < j < |kept| && kept[i].count == kept[j].count ==>
              RowKey(g, kept[i]) in stamps && RowKey(g, kept[j]) in stamps
              && stamps[RowKey(g, kept[i])].updatedAt <= stamps[RowKey(g, kept[j])].updatedAt
  {
    TopRowsDescending(stamps, g, LeaderboardLimit, rows);
    KeptPreservesOrder(rows, directory);
    KeptKeepsTieOrder(stamps, g, rows, directory);
  }

  /** The skip keeps the query's updated_at order among rows of equal count. */
  lemma KeptKeepsTieOrder(stamps: map<StampKey, StampRow>, g: string, rows: seq<BoardRow>, directory: map<string, string>)
    requires IsTopRows(stamps, g, LeaderboardLimit, rows)
    ensures var kept := Kept(rows, directory);
            forall i, j :: 0 <= i < j < |kept| && kept[i].count == kept[j].count ==>
              RowKey(g, kept[i]) in stamps && RowKey(g, kept[j]) in stamps
              && stamps[RowKey(g, kept[i])].updatedAt <= stamps[RowKey(g, kept[j])].updatedAt
  {
    var kept := Kept(rows, directory);
    var pos := KeptPositions(rows, directory);
    KeptInQueryOrder(rows, directory);
    var ks := KeysOf(g, rows);
    forall i, j | 0 <= i < j < |kept| && kept[i].count == kept[j].count
      ensures RowKey(g, kept[i]) in stamps && RowKey(g, kept[j]) in stamps
              && stamps[RowKey(g, kept[i])].updatedAt <= stamps[RowKey(g, kept[j])].updatedAt
    {
      var p, q := pos[i], pos[j];
      assert ks[p] == RowKey(g, kept[i]) && ks[q] == RowKey(g, kept[j]);
      TopRowsTieBreak(stamps, g, LeaderboardLimit, rows, p, q);
    }
  }

  class StampBot {
    /** STAMP_GOAL. */
    const goal: int
    /** MOD_ROLE_ID, "" when unset. */
    const modRoleId: string
    /** STAMP_MANAGER_ROLE_IDS, parsed. */
    const managerRoleIds: seq<string>
    /** STAMP_LOG_CHANNEL_ID is set. */
    const logChannel: bool
    /** STAMP_COMPLETED_CHANNEL_ID is set. */
    const completedChannel: bool
    const store: ProgressStore
    /** The members holding REWARD_ROLE_ID. */
    var rewardHolders: set<MemberKey>
    /** Every role add and remove the handler has made, in order. */
    var roleChanges: seq<RoleChange>
    /** Every post made to the log and completed channels, in order. */
    var posts: seq<Post>

    constructor (goal: int, modRoleSetting: string, managerSetting: string,
                 logChannelId: string, completedChannelId: string, holders: set<MemberKey>)
      ensures this.goal == goal && modRoleId == modRoleSetting
      ensures managerRoleIds == ParseRoleIds(managerSetting)
      ensures logChannel == (logChannelId != "") && completedChannel == (completedChannelId != "")
      ensures fresh(store) && store.stamps == map[] && store.userCards == map[]
      ensures rewardHolders == holders && roleChanges == [] && posts == []
    {
      this.goal := goal;
      modRoleId := modRoleSetting;
      managerRoleIds := ParseRoleIds(managerSetting);
      logChannel := logChannelId != "";
      completedChannel := completedChannelId != "";
      store := new ProgressStore();
      rewardHolders := holders;
      roleChanges := [];
      posts := [];
    }

    /** The gate of add, remove and reset. */
    predicate MayManage(ix: Interaction) {
      CanManage(ix, modRoleId, managerRoleIds)
    }

    /**
     * `leaderboard`: "no stamps" when the guild has no row at all; otherwise
     * the numbered lines of the top ten rows whose member could be fetched.
     */
    method LeaderboardCommand(ix: Interaction, directory: map<string, string>) returns (reply: Reply)
      ensures reply == NoStampsYet <==> GuildKeys(store.stamps, ix.guildId) == {}
      ensures reply != NoStampsYet ==> reply.Board? && |reply.lines| <= LeaderboardLimit
      ensures reply != NoStampsYet ==>
        exists rows :: IsTopRows(store.stamps, ix.guildId, LeaderboardLimit, rows)
                       && reply.lines == Numbered(Kept(rows, directory), directory)
    {
      var rows := store.Leaderboard(ix.guildId, LeaderboardLimit);
      if |rows| == 0 {
        return NoStampsYet;
      }
      var lines := RankLines(rows, directory);
      return Board(lines);
    }

    /** `setcard`: rejects an id outside the catalogue, otherwise saves the caller's choice. */
    method SetCardCommand(ix: Interaction, cardId: CardId) returns (reply: Reply)
      modifies store
      ensures !IsCard(cardId) ==> reply == UnknownCardChoice && store.userCards == old(store.userCards)
      ensures IsCard(cardId) ==> reply == CardSaved(StampCards[cardId].name)
                                 && store.userCards == old(store.userCards)[MemberKey(ix.guildId, ix.userId) := cardId]
      ensures store.stamps == old(store.stamps)
    {
      if cardId !in StampCards {
        return UnknownCardChoice;
      }
      store.SetCard(ix.guildId, ix.userId, cardId);
      return CardSaved(StampCards[cardId].name);
    }

    /**
     * `view`: the given user, or the caller, on their selected card; a stale
     * selection is refused; otherwise the count and the card rendered at it.
     */
    method ViewCommand(ix: Interaction, user: Option<string>) returns (reply: Reply)
      ensures var target := if user.Some? then user.value else ix.userId;
              var card := SelectedCard(store.userCards, MemberKey(ix.guildId, target));
              var count := CountOf(store.stamps, StampKey(ix.guildId, target, card));
              && (!IsCard(card) ==> reply == InvalidSavedCard)
              && (IsCard(card) ==> reply == CardView(target, StampCards[card].name, count, Rendered(card, count)))
    {
      var target := if user.Some? then user.value else ix.userId;
      var saved := store.GetCard(ix.guildId, target);
      var card := ResolveCard(saved);
      if card !in StampCards {
        return InvalidSavedCard;
      }
      var row := store.GetCount(ix.guildId, target, card);
      var count := if row.Some? then row.value else 0;
      var image := RenderStampCard(card, count);
      return CardView(target, StampCards[card].name, count, image.value);
    }

    /**
     * `resetall`: owner or Administrator only; deletes every stamps row of the
     * guild and logs it. Selections and reward roles are left as they are.
     */
    method ResetAllCommand(ix: Interaction) returns (reply: Reply)
      modifies store, this`posts
      ensures !CanResetAll(ix) ==> reply == OwnerOrAdminOnly && store.stamps == old(store.stamps) && posts == old(posts)
      ensures CanResetAll(ix) ==> reply == ServerReset
                                  && store.stamps == WithoutGuild(old(store.stamps), ix.guildId)
                                  && posts == old(posts) + (if logChannel then [ResetAllLog(ix.guildId, ix.userId)] else [])
      ensures store.userCards == old(store.userCards)
    {
      if !IsOwner(ix) && !ix.isAdmin {
        return OwnerOrAdminOnly;
      }
      store.ResetGuild(ix.guildId);
      if logChannel {
        posts := posts + [ResetAllLog(ix.guildId, ix.userId)];
      }
      return ServerReset;
    }

    /**
     * `add` and `remove`: after the permission gate, the member fetch and the
     * card check, store the next count with the time, post "completed" on an
     * upward crossing, bring the reward role in line with the new count, and
     * log the transcript.
     */
    method AdjustCommand(op: Adjustment, ix: Interaction, target: string, targetFound: bool,
                         amount: Option<nat>, now: int) returns (reply: Reply)
      modifies store, this`rewardHolders, this`roleChanges, this`posts
      ensures store.userCards == old(store.userCards)
      ensures !MayManage(ix) ==> reply == NoPermission && unchanged(this, store)
      ensures MayManage(ix) && !targetFound ==> reply == MemberNotFound && unchanged(this, store)
      ensures var m := MemberKey(ix.guildId, target);
              var card := SelectedCard(old(store.userCards), m);
              MayManage(ix) && targetFound && !IsCard(card) ==> reply == TargetInvalidCard && unchanged(this, store)
      ensures var m := MemberKey(ix.guildId, target);
              var card := SelectedCard(old(store.userCards), m);
              var key := StampKey(ix.guildId, target, card);
              var current := CountOf(old(store.stamps), key);
              var a := EffectiveAmount(amount);
              var next := NextCount(op, current, a);
              var sync := SyncReward(old(rewardHolders), m, RewardEligible(next, goal));
              MayManage(ix) && targetFound && IsCard(card) ==>
                && store.stamps == old(store.stamps)[key := StampRow(next, now)]
                && rewardHolders == sync.holders
                && roleChanges == old(roleChanges) + sync.changes
                && posts == old(posts) + AdjustPosts(completedChannel, logChannel, goal, op, m, ix.userId, card, a, current, next)
                && reply == NowHas(target, next, StampCards[card].name)
    {
      if !CanManage(ix, modRoleId, managerRoleIds) {
        return NoPermission;
      }
      if !targetFound {
        return MemberNotFound;
      }
      var g := ix.guildId;
      var m := MemberKey(g, target);
      var saved := store.GetCard(g, target);
      var card := ResolveCard(saved);
      if card !in StampCards {
        return TargetInvalidCard;
      }
      var next := ApplyAdjustment(op, m, ix.userId, card, amount, now);
      return NowHas(target, next, StampCards[card].name);
    }

    /** The add or remove itself, once the gate, the member and the card have passed. */
    method ApplyAdjustment(op: Adjustment, m: MemberKey, actor: string, card: CardId, amount: Option<nat>, now: int)
      returns (next: nat)
      requires IsCard(card)
      modifies store, this`rewardHolders, this`roleChanges, this`posts
      ensures var key := StampKey(m.guild, m.user, card);
              var current := CountOf(old(store.stamps), key);
              var a := EffectiveAmount(amount);
              var sync := SyncReward(old(rewardHolders), m, RewardEligible(next, goal));
              && next == NextCount(op, current, a)
              && store.stamps == old(store.stamps)[key := StampRow(next, now)]
              && store.userCards == old(store.userCards)
              && rewardHolders == sync.holders
              && roleChanges == old(roleChanges) + sync.changes
              && posts == old(posts) + AdjustPosts(completedChannel, logChannel, goal, op, m, actor, card, a, current, next)
    {
      var row := store.GetCount(m.guild, m.user, card);
      var current := if row.Some? then row.value else 0;
      var a := EffectiveAmount(amount);
      next := NextCount(op, current, a);
      store.Upsert(m.guild, m.user, card, next, now);
      PostCompleted(op, m, actor, card, current, next);
      SyncRewardRole(m, next >= goal);
      PostTranscript(op, m, actor, card, a, current, next);
    }

    /** The "completed" post, made only on an add that crosses the goal and only when the channel is set. */
    method PostCompleted(op: Adjustment, m: MemberKey, actor: string, card: CardId, current: nat, next: nat)
      requires IsCard(card)
      modifies this`posts
      ensures posts == old(posts) + (if completedChannel && Completes(op, current, next, goal)
                                     then [Completed(m, actor, card, next, Rendered(card, next))] else [])
    {
      if op == Add && current < goal && next >= goal {
        if completedChannel {
          var image := RenderStampCard(card, next);
          posts := posts + [Completed(m, actor, card, next, image.value)];
        }
      }
    }

    /** The reward role logic: add the role if due and absent, remove it if not due and present. */
    method SyncRewardRole(m: MemberKey, eligible: bool)
      modifies this`rewardHolders, this`roleChanges
      ensures rewardHolders == SyncReward(old(rewardHolders), m, eligible).holders
      ensures roleChanges == old(roleChanges) + SyncReward(old(rewardHolders), m, eligible).changes
    {
      if eligible && m !in rewardHolders {
        rewardHolders := rewardHolders + {m};
        roleChanges := roleChanges + [Granted(m)];
      }
      if !eligible && m in rewardHolders {
        rewardHolders := rewardHolders - {m};
        roleChanges := roleChanges + [Revoked(m)];
      }
    }

    /** The transcript of an add or remove, when the log channel is set. */
    method PostTranscript(op: Adjustment, m: MemberKey, actor: string, card: CardId, amount: nat, current: nat, next: nat)
      requires IsCard(card)
      modifies this`posts
      ensures posts == old(posts) + (if logChannel
        then [Transcript(m, actor, card, if op == Add then Added(amount, current, next) else Removed(amount, current, next),
                         next, Rendered(card, next))]
        else [])
    {
      if logChannel {
        var image := RenderStampCard(card, next);
        var action := if op == Add then Added(amount, current, next) else Removed(amount, current, next);
        posts := posts + [Transcript(m, actor, card, action, next, image.value)];
      }
    }

    /**
     * `reset`: after the same gate, fetch and card check as add, delete the
     * member's row for the selected card only, remove the reward role if held,
     * and log the reset with the count it had.
     */
    method ResetCommand(ix: Interaction, target: string, targetFound: bool) returns (reply: Reply)
      modifies store, this`rewardHolders, this`roleChanges, this`posts
      ensures store.userCards == old(store.userCards)
      ensures !MayManage(ix) ==> reply == NoPermission && unchanged(this, store)
      ensures MayManage(ix) && !targetFound ==> reply == MemberNotFound && unchanged(this, store)
      ensures var m := MemberKey(ix.guildId, target);
              var card := SelectedCard(old(store.userCards), m);
              MayManage(ix) && targetFound && !IsCard(card) ==> reply == TargetInvalidCard && unchanged(this, store)
      ensures var m := MemberKey(ix.guildId, target);
              var card := SelectedCard(old(store.userCards), m);
              var key := StampKey(ix.guildId, target, card);
              MayManage(ix) && targetFound && IsCard(card) ==>
                && store.stamps == old(store.stamps) - {key}
                && rewardHolders == old(rewardHolders) - {m}
                && roleChanges == old(roleChanges) + (if m in old(rewardHolders) then [Revoked(m)] else [])
                && posts == old(posts) + (if logChannel
                                          then [Transcript(m, ix.userId, card, ResetFrom(CountOf(old(store.stamps), key)), 0, Rendered(card, 0))]
                                          else [])
                && reply == ResetDone(target, StampCards[card].name)
    {
      if !CanManage(ix, modRoleId, managerRoleIds) {
        return NoPermission;
      }
      if !targetFound {
        return MemberNotFound;
      }
      var g := ix.guildId;
      var m := MemberKey(g, target);
      var saved := store.GetCard(g, target);
      var card := ResolveCard(saved);
      if card !in StampCards {
        return TargetInvalidCard;
      }
      ApplyReset(m, ix.userId, card);
      return ResetDone(target, StampCards[card].name);
    }

    /** The reset itself, once the gate, the member and the card have passed. */
    method ApplyReset(m: MemberKey, actor: string, card: CardId)
      requires IsCard(card)
      modifies store, this`rewardHolders, this`roleChanges, this`posts
      ensures var key := StampKey(m.guild, m.user, card);
              && store.stamps == old(store.stamps) - {key}
              && store.userCards == old(store.userCards)
              && rewardHolders == old(rewardHolders) - {m}
              && roleChanges == old(roleChanges) + (if m in old(rewardHolders) then [Revoked(m)] else [])
              && posts == old(posts) + (if logChannel
                                        then [Transcript(m, actor, card, ResetFrom(CountOf(old(store.stamps), key)), 0, Rendered(card, 0))]
                                        else [])
    {
      var row := store.GetCount(m.guild, m.user, card);
      var current := if row.Some? then row.value else 0;
      store.Delete(m.guild, m.user, card);
      if m in rewardHolders {
        rewardHolders := rewardHolders - {m};
        roleChanges := roleChanges + [Revoked(m)];
      }
      if logChannel {
        var image := RenderStampCard(card, 0);
        posts := posts + [Transcript(m, actor, card, ResetFrom(current), 0, image.value)];
      }
    }
  }
}
