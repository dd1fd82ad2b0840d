/**
 * The count arithmetic and the decisions of the add, remove and reset
 * branches (index.js:564-628): card resolution, the next count, the goal
 * crossing that triggers the "completed" post, and the reward role sync.
 */
module Progress {
  import opened Wrappers
  import opened Cards
  import opened Store

  /** The two subcommands that change a count by an amount. */
  datatype Adjustment = Add | Remove

  /** One call on the reward role, as the handler makes it. */
  datatype RoleChange = Granted(member: MemberKey) | Revoked(member: MemberKey)

  /** The reward role's holders after a sync, and the calls the sync made. */
  datatype Synced = Synced(holders: set<MemberKey>, changes: seq<RoleChange>)

  /** `saved?.card_id || "og"`: the saved selection, unless it is missing or empty. */
  function ResolveCard(saved: Option<CardId>): (id: CardId)
    ensures (saved.None? || saved.value == "") ==> id == DefaultCardId
    ensures saved.Some? && saved.value != "" ==> id == saved.value
    ensures id != ""
  {
    if saved.Some? && saved.value != "" then saved.value else DefaultCardId
  }

  /** The card a member's add, remove, reset and view act on. */
  function SelectedCard(userCards: map<MemberKey, CardId>, m: MemberKey): (c: CardId)
    ensures m in userCards && userCards[m] != "" ==> c == userCards[m]
    ensures (m !in userCards || userCards[m] == "") ==> c == DefaultCardId
  {
    ResolveCard(if m in userCards then Some(userCards[m]) else None)
  }

  /** `interaction.options.getInteger("amount") || 1`: a missing or zero amount is 1. */
  function EffectiveAmount(amount: Option<nat>): (a: nat)
    ensures a >= 1
    ensures (amount.None? || amount.value == 0) ==> a == 1
    ensures amount.Some? && amount.value != 0 ==> a == amount.value
  {
    if amount.Some? && amount.value != 0 then amount.value else 1
  }

  function Max(a: int, b: int): int {
    if a < b then b else a
  }

  /** `sub === "add" ? current + amount : Math.max(0, current - amount)`. */
  function NextCount(op: Adjustment, current: nat, amount: nat): (next: nat)
    ensures op == Add ==> next - amount == current
    ensures op == Remove ==> next <= current && (next == 0 || next + amount == current)
    ensures op == Remove && amount <= current ==> next + amount == current
  {
    if op == Add then current + amount else Max(0, current - amount)
  }

  /** The reward role's condition: the count has reached the goal. */
  predicate RewardEligible(count: int, goal: int) {
    count >= goal
  }

  /** The guard of the "completed" post: an add that moves the count from below the goal to at least the goal. */
  predicate Completes(op: Adjustment, current: int, next: int, goal: int) {
    op == Add && current < goal && next >= goal
  }

  /** A remove that moves the count from at least the goal to below it. */
  predicate DropsBelow(op: Adjustment, current: int, next: int, goal: int) {
    op == Remove && current >= goal && next < goal
  }

  /**
   * The reward role logic: add the role when eligible and not held, remove it
   * when not eligible and held, otherwise make no call.
   */
  function SyncReward(holders: set<MemberKey>, m: MemberKey, eligible: bool): (r: Synced)
    ensures m in r.holders <==> eligible
    ensures r.holders - {m} == holders - {m}
    ensures r.changes == [] <==> ((m in holders) == eligible)
    ensures eligible && m !in holders ==> r.changes == [Granted(m)]
    ensures !eligible && m in holders ==> r.changes == [Revoked(m)]
  {
    if eligible && m !in holders then Synced(holders + {m}, [Granted(m)])
    else if !eligible && m in holders then Synced(holders - {m}, [Revoked(m)])
    else Synced(holders, [])
  }

  /** Syncing twice is syncing once: the second sync makes no call and changes nothing. */
  lemma SyncRewardIdempotent(holders: set<MemberKey>, m: MemberKey, eligible: bool)
    ensures var once := SyncReward(holders, m, eligible);
            SyncReward(once.holders, m, eligible) == Synced(once.holders, [])
  {
  }

  /** A remove undoes an add of the same amount. */
  lemma RemoveUndoesAdd(current: nat, amount: nat)
    ensures NextCount(Remove, NextCount(Add, current, amount), amount) == current
  {
  }

  /** An add undoes a remove of the same amount exactly when the remove did not clamp at zero. */
  lemma AddUndoesRemove(current: nat, amount: nat)
    ensures NextCount(Add, NextCount(Remove, current, amount), amount) == current <==> amount <= current
  {
  }

  /**
   * The "completed" post fires exactly on an add with current < goal <= current + amount;
   * never on a remove and never when the count already was at or past the goal.
   */
  lemma CompletesExactly(op: Adjustment, current: nat, amount: nat, goal: int)
    ensures Completes(op, current, NextCount(op, current, amount), goal)
            <==> op == Add && current < goal <= current + amount
    ensures op == Remove ==> !Completes(op, current, NextCount(op, current, amount), goal)
    ensures current >= goal ==> !Completes(op, current, NextCount(op, current, amount), goal)
  {
  }

  /** Crossing upward and crossing downward never happen in the same step. */
  lemma CrossingsExclusive(op: Adjustment, current: nat, next: nat, goal: int)
    ensures !(Completes(op, current, next, goal) && DropsBelow(op, current, next, goal))
  {
  }

  /**
   * When the role was in step with the count before the step, the sync after
   * an add or remove calls the role API exactly when the goal was crossed:
   * a grant on the crossing that posts "completed", a removal on a drop below.
   */
  lemma SyncCallsOnCrossing(holders: set<MemberKey>, m: MemberKey, op: Adjustment, current: nat, amount: nat, goal: int)
    requires (m in holders) == RewardEligible(current, goal)
    ensures var next := NextCount(op, current, amount);
            var r := SyncReward(holders, m, RewardEligible(next, goal));
            && (r.changes == [Granted(m)] <==> Completes(op, current, next, goal))
            && (r.changes == [Revoked(m)] <==> DropsBelow(op, current, next, goal))
  {
  }

  /** After a selection is saved it is what the member's commands act on; nobody else's changes. */
  lemma SelectedAfterSave(userCards: map<MemberKey, CardId>, m: MemberKey, c: CardId, other: MemberKey)
    requires IsCard(c) && other != m
    ensures SelectedCard(userCards[m := c], m) == c
    ensures SelectedCard(userCards[m := c], other) == SelectedCard(userCards, other)
  {
    CatalogueIds();
  }

  /** Members who never chose a card use the og card, which is in the catalogue. */
  lemma DefaultSelection(userCards: map<MemberKey, CardId>, m: MemberKey)
    requires m !in userCards
    ensures SelectedCard(userCards, m) == DefaultCardId && IsCard(SelectedCard(userCards, m))
  {
  }
}
