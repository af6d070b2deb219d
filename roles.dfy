/** Role authority: one constant owner, and the two lists `ADMINS`
    (managers) and `CO_OWNERS`, which hold Telegram usernames. */
module Roles {
  import opened Wrappers
  import opened Text

  /** A Telegram username as Python sees it: None when the account has none. */
  type Handle = Option<string>

  /** The acting or replied-to Telegram user. */
  datatype User = User(id: int, username: Handle, firstName: string, fullName: string, isBot: bool)

  const OWNER_ID: int := 1768830793

  /** Python truthiness of `user.username`: present and non-empty. */
  predicate HasHandle(u: User) {
    u.username.Some? && u.username.value != ""
  }

  predicate IsOwner(u: User) {
    u.id == OWNER_ID
  }

  predicate IsCoOwner(coOwners: seq<Handle>, u: User) {
    HasHandle(u) && u.username in coOwners
  }

  predicate IsManager(admins: seq<Handle>, u: User) {
    HasHandle(u) && u.username in admins
  }

  /** `can_modify`: may create, credit, debit and reset accounts. */
  predicate CanModify(admins: seq<Handle>, coOwners: seq<Handle>, u: User) {
    IsOwner(u) || IsManager(admins, u) || IsCoOwner(coOwners, u)
  }

  /** `can_manage_users`: may promote and demote. */
  predicate CanManageUsers(coOwners: seq<Handle>, u: User) {
    IsOwner(u) || IsCoOwner(coOwners, u)
  }

  /** Whoever may manage roles may also touch the ledger, and a manager
      (not owner, not co-owner) may touch the ledger but not manage roles. */
  lemma RoleHierarchy(admins: seq<Handle>, coOwners: seq<Handle>, u: User)
    ensures CanManageUsers(coOwners, u) ==> CanModify(admins, coOwners, u)
    ensures IsManager(admins, u) && !IsOwner(u) && u.username !in coOwners
      ==> CanModify(admins, coOwners, u) && !CanManageUsers(coOwners, u)
    ensures !HasHandle(u) ==> (CanModify(admins, coOwners, u) <==> IsOwner(u))
  {
  }

  predicate NoDuplicates(s: seq<Handle>) {
    forall i, j :: 0 <= i < j < |s| ==> s[i] != s[j]
  }

  predicate Disjoint(a: seq<Handle>, b: seq<Handle>) {
    forall h :: h in a ==> h !in b
  }

  /** The role invariant: neither list repeats an entry and no entry is in both. */
  predicate RolesValid(admins: seq<Handle>, coOwners: seq<Handle>) {
    NoDuplicates(admins) && NoDuplicates(coOwners) && Disjoint(admins, coOwners)
  }

  /** Position of the first `x` in `s`, or `|s|` when there is none. */
  function IndexOf(s: seq<Handle>, x: Handle): (i: nat)
    ensures i <= |s|
    ensures i < |s| ==> s[i] == x
    ensures forall j :: 0 <= j < i ==> s[j] != x
  {
    if |s| == 0 then 0 else if s[0] == x then 0 else 1 + IndexOf(s[1..], x)
  }

  /** Python `list.remove(x)` for an `x` the list holds; the source only
      calls it after an `in` test. */
  function RemoveFirst(s: seq<Handle>, x: Handle): seq<Handle> {
    if |s| == 0 then []
    else if s[0] == x then s[1..]
    else [s[0]] + RemoveFirst(s[1..], x)
  }

  /** `remove(x)` drops the first occurrence and keeps the order of
      everything else; a list without `x` comes back unchanged. */
  lemma {:induction false} RemoveFirstDropsFirst(s: seq<Handle>, x: Handle)
    ensures |RemoveFirst(s, x)| == if IndexOf(s, x) < |s| then |s| - 1 else |s|
    ensures forall k {:trigger RemoveFirst(s, x)[k]} :: 0 <= k < |RemoveFirst(s, x)| ==>
      RemoveFirst(s, x)[k] == if k < IndexOf(s, x) then s[k] else s[k + 1]
  {
    if |s| > 0 && s[0] == x {
      assert IndexOf(s, x) == 0;
    } else if |s| > 0 {
      RemoveFirstDropsFirst(s[1..], x);
      var r := RemoveFirst(s, x);
      var r' := RemoveFirst(s[1..], x);
      var i' := IndexOf(s[1..], x);
      assert IndexOf(s, x) == 1 + i';
      assert r == [s[0]] + r';
      forall k | 0 < k < |r| ensures r[k] == if k < 1 + i' then s[k] else s[k + 1] {
        assert r[k] == r'[k - 1];
        assert r'[k - 1] == if k - 1 < i' then s[1..][k - 1] else s[1..][k];
      }
    }
  }

  /** In a list without duplicates `remove(x)` leaves no `x` behind and
      keeps every other entry. */
  lemma {:induction false} RemoveFirstMembers(s: seq<Handle>, x: Handle)
    requires NoDuplicates(s)
    ensures x !in RemoveFirst(s, x)
    ensures forall y :: y != x ==> (y in RemoveFirst(s, x) <==> y in s)
  {
    if |s| > 0 {
      if s[0] == x {
        assert forall j :: 0 < j < |s| ==> s[j] != s[0];
      } else {
        RemoveFirstMembers(s[1..], x);
        assert RemoveFirst(s, x) == [s[0]] + RemoveFirst(s[1..], x);
        assert s == [s[0]] + s[1..];
      }
    }
  }

  /** ... and repeats nothing. */
  lemma {:induction false} RemoveFirstNoDuplicates(s: seq<Handle>, x: Handle)
    requires NoDuplicates(s)
    ensures NoDuplicates(RemoveFirst(s, x))
    ensures x !in RemoveFirst(s, x)
    ensures forall y :: y != x ==> (y in RemoveFirst(s, x) <==> y in s)
  {
    RemoveFirstMembers(s, x);
    if |s| > 0 && s[0] != x {
      var rest := RemoveFirst(s[1..], x);
      RemoveFirstNoDuplicates(s[1..], x);
      assert s[0] !in s[1..] by {
        assert forall j :: 0 < j < |s| ==> s[j] != s[0];
      }
      var r := [s[0]] + rest;
      assert RemoveFirst(s, x) == r;
      forall i, j | 0 <= i < j < |r| ensures r[i] != r[j] {
        if i == 0 { assert r[j] in rest; }
      }
    }
  }

  /** Promotion (`co` into `CO_OWNERS`, `prom` into `ADMINS`): when the
      target is not yet in the destination list, removing it from the other
      list and appending it to the destination keeps the role invariant,
      and the target ends up in the destination only. */
  lemma {:induction false} PromotionKeepsRoles(dest: seq<Handle>, other: seq<Handle>, h: Handle)
    requires NoDuplicates(dest) && NoDuplicates(other) && Disjoint(dest, other)
    requires h !in dest
    ensures var other' := if h in other then RemoveFirst(other, h) else other;
      var dest' := dest + [h];
      NoDuplicates(dest') && NoDuplicates(other') && Disjoint(dest', other') && Disjoint(other', dest')
      && RolesValid(dest', other') && RolesValid(other', dest')
      && h in dest' && h !in other'
  {
    var other' := if h in other then RemoveFirst(other, h) else other;
    var dest' := dest + [h];
    RemoveFirstNoDuplicates(other, h);
    forall i, j | 0 <= i < j < |dest'| ensures dest'[i] != dest'[j] {
      if j == |dest| { assert dest'[i] == dest[i]; }
    }
    forall y | y in dest' ensures y !in other' {
      if y != h { assert y in dest; }
    }
  }

  /** Demotion (`dem`): removing the target from both lists keeps the role
      invariant, leaves it in neither list, and every other handle is still
      in the lists it was in. */
  lemma DemotionKeepsRoles(admins: seq<Handle>, coOwners: seq<Handle>, h: Handle)
    requires RolesValid(admins, coOwners)
    ensures var admins' := if h in admins then RemoveFirst(admins, h) else admins;
      var coOwners' := if h in coOwners then RemoveFirst(coOwners, h) else coOwners;
      RolesValid(admins', coOwners') && h !in admins' && h !in coOwners'
      && (forall y :: y != h ==> (y in admins' <==> y in admins) && (y in coOwners' <==> y in coOwners))
  {
    RemoveFirstNoDuplicates(admins, h);
    RemoveFirstNoDuplicates(coOwners, h);
  }
}
