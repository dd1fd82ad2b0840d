/**
 * Who may change stamps (index.js:403-423, 517-528) and the manager role list
 * read from the comma-separated STAMP_MANAGER_ROLE_IDS setting (index.js:22-26).
 */
module Permissions {

  /**
   * What the handler reads from an interaction: the guild and its owner, the
   * calling user, whether the caller has the Administrator permission, and the
   * caller's role ids (from the role cache, a plain role array, or none).
   */
  datatype Interaction = Interaction(
    guildId: string,
    guildOwnerId: string,
    userId: string,
    isAdmin: bool,
    roleIds: seq<string>)

  /** The characters `String.prototype.trim` removes: white space and line terminators. */
  predicate IsJsSpace(c: char) {
    c == '\t' || c == '\n' || c == '\U{000B}' || c == '\U{000C}' || c == '\r' || c == ' '
    || c == '\U{00A0}' || c == '\U{1680}' || ('\U{2000}' <= c <= '\U{200A}')
    || c == '\U{2028}' || c == '\U{2029}' || c == '\U{202F}' || c == '\U{205F}'
    || c == '\U{3000}' || c == '\U{FEFF}'
  }

  /** Neither end of `s` is white space. */
  predicate Trimmed(s: string) {
    s == [] || (!IsJsSpace(s[0]) && !IsJsSpace(s[|s| - 1]))
  }

  /** The pieces joined back with `sep` between each two (`Array.prototype.join`). */
  function Join(parts: seq<string>, sep: char): string
    decreases |parts|
  {
    if |parts| == 0 then ""
    else if |parts| == 1 then parts[0]
    else parts[0] + [sep] + Join(parts[1..], sep)
  }

  /**
   * `s.split(sep)`: the maximal runs between separators, one more piece than
   * there are separators (so the empty string splits into one empty piece).
   */
  function Split(s: string, sep: char): (parts: seq<string>)
    ensures |parts| >= 1
    ensures forall i :: 0 <= i < |parts| ==> sep !in parts[i]
    ensures Join(parts, sep) == s
    decreases |s|
  {
    if s == [] then [""]
    else if s[0] == sep then
      var rest := Split(s[1..], sep);
      assert s == [sep] + s[1..];
      [""] + rest
    else
      var rest := Split(s[1..], sep);
      var parts := [[s[0]] + rest[0]] + rest[1..];
      assert parts[1..] == rest[1..];
      assert s == [s[0]] + s[1..];
      parts
  }

  /** `s.trimStart()`: drops the white space at the front. */
  function TrimStart(s: string): (r: string)
    ensures |r| <= |s| && r == s[|s| - |r|..]
    ensures forall i :: 0 <= i < |s| - |r| ==> IsJsSpace(s[i])
    ensures r == [] || !IsJsSpace(r[0])
    decreases |s|
  {
    if s != [] && IsJsSpace(s[0]) then TrimStart(s[1..]) else s
  }

  /** `s.trimEnd()`: drops the white space at the back. */
  function TrimEnd(s: string): (r: string)
    ensures |r| <= |s| && r == s[..|r|]
    ensures forall i :: |r| <= i < |s| ==> IsJsSpace(s[i])
    ensures r == [] || !IsJsSpace(r[|r| - 1])
    decreases |s|
  {
    if s != [] && IsJsSpace(s[|s| - 1]) then TrimEnd(s[..|s| - 1]) else s
  }

  /** `s.trim()`: `s` without its leading and trailing white space. */
  function Trim(s: string): (r: string)
    ensures Trimmed(r)
    ensures |r| <= |s|
    ensures Trimmed(s) ==> r == s
  {
    var t := TrimStart(s);
    var r := TrimEnd(t);
    assert r != [] ==> r[0] == t[0];
    r
  }

  /**
   * The trim removes nothing but white space, and only at the ends: the result
   * is the stretch of `s` between a white-space prefix and a white-space suffix.
   */
  lemma TrimRemovesOnlyEnds(s: string)
    ensures exists a, b :: 0 <= a <= b <= |s| && Trim(s) == s[a..b]
              && (forall k :: 0 <= k < a ==> IsJsSpace(s[k]))
              && (forall k :: b <= k < |s| ==> IsJsSpace(s[k]))
  {
    var t := TrimStart(s);
    var r := TrimEnd(t);
    var a := |s| - |t|;
    var b := a + |r|;
    assert r == s[a..b] by {
      assert t == s[a..] && r == t[..|r|];
    }
    assert Trim(s) == r;
    assert forall k :: 0 <= k < a ==> IsJsSpace(s[k]);
    forall k | b <= k < |s| ensures IsJsSpace(s[k]) {
      assert s[k] == t[k - a] && |r| <= k - a < |t|;
    }
    assert 0 <= a <= b <= |s| && Trim(s) == s[a..b];
  }

  /** `.filter(Boolean)` on strings: keeps the non-empty ones, in order. */
  function DropEmpty(parts: seq<string>): (r: seq<string>)
    ensures |r| <= |parts|
    ensures forall i :: 0 <= i < |r| ==> r[i] != ""
    ensures forall x :: x in r <==> x in parts && x != ""
    decreases |parts|
  {
    if parts == [] then []
    else if parts[0] == "" then DropEmpty(parts[1..])
    else [parts[0]] + DropEmpty(parts[1..])
  }

  /** The filter works piece by piece, so the kept pieces stay in their order. */
  lemma {:induction false} DropEmptyAppend(a: seq<string>, b: seq<string>)
    ensures DropEmpty(a + b) == DropEmpty(a) + DropEmpty(b)
    decreases |a|
  {
    if a != [] {
      assert (a + b)[1..] == a[1..] + b;
      DropEmptyAppend(a[1..], b);
    } else {
      assert a + b == b;
    }
  }

  /** `.map((s) => s.trim())`. */
  function TrimAll(parts: seq<string>): (r: seq<string>)
    ensures |r| == |parts|
    ensures forall i :: 0 <= i < |r| ==> r[i] == Trim(parts[i])
  {
    seq(|parts|, i requires 0 <= i < |parts| => Trim(parts[i]))
  }

  /** STAMP_MANAGER_ROLE_IDS: the comma-separated setting, split, trimmed, empties dropped. */
  function ParseRoleIds(setting: string): (ids: seq<string>)
    ensures forall i :: 0 <= i < |ids| ==> ids[i] != "" && Trimmed(ids[i]) && ',' !in ids[i]
  {
    var parts := Split(setting, ',');
    CleanedIdsClean(parts);
    DropEmpty(TrimAll(parts))
  }

  /** Trimming comma-free pieces and dropping the empty ones leaves clean ids. */
  lemma CleanedIdsClean(parts: seq<string>)
    requires forall i :: 0 <= i < |parts| ==> ',' !in parts[i]
    ensures forall i :: 0 <= i < |DropEmpty(TrimAll(parts))| ==>
              var x := DropEmpty(TrimAll(parts))[i]; x != "" && Trimmed(x) && ',' !in x
  {
    var trimmed := TrimAll(parts);
    var ids := DropEmpty(trimmed);
    forall i | 0 <= i < |ids| ensures Trimmed(ids[i]) && ',' !in ids[i] {
      assert ids[i] in trimmed;
      var j :| 0 <= j < |trimmed| && trimmed[j] == ids[i];
      TrimIsInfix(parts[j]);
    }
  }

  /** Trimming only removes characters from the ends, so it adds no separator. */
  lemma TrimIsInfix(s: string)
    ensures forall c :: c in Trim(s) ==> c in s
  {
    var t := TrimStart(s);
    forall c | c in Trim(s) ensures c in s {
      assert c in t;
    }
  }

  /** A piece with no separator splits into itself. */
  lemma {:induction false} SplitNoSeparator(p: string, sep: char)
    requires sep !in p
    ensures Split(p, sep) == [p]
    decreases |p|
  {
    if p != [] {
      SplitNoSeparator(p[1..], sep);
      assert [p[0]] + p[1..] == p;
    }
  }

  /** Splitting `p + sep + t` with no separator in `p` yields `p` followed by the pieces of `t`. */
  lemma {:induction false} SplitFirstPiece(p: string, t: string, sep: char)
    requires sep !in p
    ensures Split(p + [sep] + t, sep) == [p] + Split(t, sep)
    decreases |p|
  {
    var s := p + [sep] + t;
    if p == [] {
      assert s[1..] == t;
    } else {
      assert s[1..] == p[1..] + [sep] + t;
      SplitFirstPiece(p[1..], t, sep);
      assert [p[0]] + p[1..] == p;
    }
  }

  /** Splitting undoes joining, for pieces that hold no separator. */
  lemma {:induction false} SplitJoin(parts: seq<string>, sep: char)
    requires |parts| >= 1
    requires forall i :: 0 <= i < |parts| ==> sep !in parts[i]
    ensures Split(Join(parts, sep), sep) == parts
    decreases |parts|
  {
    if |parts| == 1 {
      SplitNoSeparator(parts[0], sep);
    } else {
      SplitJoin(parts[1..], sep);
      SplitFirstPiece(parts[0], Join(parts[1..], sep), sep);
      assert [parts[0]] + parts[1..] == parts;
    }
  }

  /** Non-empty, already trimmed strings are left alone by the trim and the filter. */
  lemma {:induction false} CleanPartsKept(ids: seq<string>)
    requires forall i :: 0 <= i < |ids| ==> ids[i] != "" && Trimmed(ids[i])
    ensures DropEmpty(TrimAll(ids)) == ids
    decreases |ids|
  {
    if ids != [] {
      CleanPartsKept(ids[1..]);
      assert TrimAll(ids)[1..] == TrimAll(ids[1..]);
      assert [ids[0]] + ids[1..] == ids;
    }
  }

  /**
   * Round trip: a list of non-empty, trimmed role ids without commas, written
   * as the comma-separated setting, is read back as the same list (the empty
   * list is the empty setting).
   */
  lemma ParseJoinedRoleIds(ids: seq<string>)
    requires forall i :: 0 <= i < |ids| ==> ids[i] != "" && Trimmed(ids[i]) && ',' !in ids[i]
    ensures ParseRoleIds(Join(ids, ',')) == ids
  {
    if ids == [] {
      EmptySettingNoIds();
    } else {
      SplitJoin(ids, ',');
      CleanPartsKept(ids);
    }
  }

  /** The unset setting gives no manager ids. */
  lemma EmptySettingNoIds()
    ensures ParseRoleIds("") == []
  {
    var parts := Split("", ',');
    assert parts == [""];
    var trimmed := TrimAll(parts);
    assert trimmed[0] == Trim("") == "";
    assert trimmed == [""];
    assert DropEmpty(trimmed) == [];
  }

  /**
   * The manager ids are exactly the non-empty trims of the comma-separated
   * pieces of the setting, whatever white space surrounds them.
   */
  lemma ParseRoleIdsMembers(setting: string, x: string)
    ensures x in ParseRoleIds(setting) <==> x != "" && exists p :: p in Split(setting, ',') && Trim(p) == x
  {
    CleanedMembers(Split(setting, ','), x);
  }

  /** A string survives the trim and the filter iff it is the non-empty trim of some piece. */
  lemma CleanedMembers(parts: seq<string>, x: string)
    ensures x in DropEmpty(TrimAll(parts)) <==> x != "" && exists p :: p in parts && Trim(p) == x
  {
    var trimmed := TrimAll(parts);
    if x in DropEmpty(trimmed) {
      var j :| 0 <= j < |trimmed| && trimmed[j] == x;
      assert parts[j] in parts && Trim(parts[j]) == x;
    }
    if x != "" && exists p :: p in parts && Trim(p) == x {
      var p :| p in parts && Trim(p) == x;
      var j :| 0 <= j < |parts| && parts[j] == p;
      assert trimmed[j] == x;
    }
  }

  /** `STAMP_MANAGER_ROLE_IDS.some((id) => roleIds.includes(id))`. */
  function AnyHeld(managerIds: seq<string>, roleIds: seq<string>): (r: bool)
    ensures r <==> exists i :: 0 <= i < |managerIds| && managerIds[i] in roleIds
    decreases |managerIds|
  {
    if managerIds == [] then false
    else managerIds[0] in roleIds || AnyHeld(managerIds[1..], roleIds)
  }

  /** The caller owns the guild. */
  predicate IsOwner(ix: Interaction) {
    ix.guildOwnerId == ix.userId
  }

  /**
   * `canManage`: owner, or Administrator, or holder of MOD_ROLE_ID when that
   * is set, or holder of one of the manager roles.
   */
  function CanManage(ix: Interaction, modRoleId: string, managerIds: seq<string>): (r: bool)
    ensures r <==> IsOwner(ix) || ix.isAdmin || (modRoleId != "" && modRoleId in ix.roleIds)
                   || exists id :: id in managerIds && id in ix.roleIds
  {
    var hasManagerRole := (modRoleId != "" && modRoleId in ix.roleIds) || AnyHeld(managerIds, ix.roleIds);
    IsOwner(ix) || ix.isAdmin || hasManagerRole
  }

  /** The gate of `resetall`: owner or Administrator only. */
  function CanResetAll(ix: Interaction): (r: bool)
    ensures r ==> CanManage(ix, "", [])
    ensures !r ==> !IsOwner(ix) && !ix.isAdmin
  {
    IsOwner(ix) || ix.isAdmin
  }

  /** Whoever may reset the whole guild may also manage single members' stamps. */
  lemma ResetAllGateIsStricter(ix: Interaction, modRoleId: string, managerIds: seq<string>)
    requires CanResetAll(ix)
    ensures CanManage(ix, modRoleId, managerIds)
  {
  }

  /**
   * A role alone never opens `resetall`: a caller who is neither owner nor
   * admin is refused there even when holding the moderator role or a manager
   * role that opens add, remove and reset.
   */
  lemma RolesDoNotOpenResetAll(ix: Interaction, modRoleId: string, managerIds: seq<string>)
    requires !IsOwner(ix) && !ix.isAdmin
    ensures !CanResetAll(ix)
    ensures CanManage(ix, modRoleId, managerIds)
            <==> (modRoleId != "" && modRoleId in ix.roleIds) || AnyHeld(managerIds, ix.roleIds)
  {
  }

  /** An unset MOD_ROLE_ID (the empty string) grants nothing, even to a role named "". */
  lemma EmptyModRoleGrantsNothing(ix: Interaction, managerIds: seq<string>)
    requires !IsOwner(ix) && !ix.isAdmin && !AnyHeld(managerIds, ix.roleIds)
    ensures !CanManage(ix, "", managerIds)
  {
  }
}
