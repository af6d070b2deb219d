/** The bot's state and its commands, one command at a time: the role
    lists, the account sheet, the transaction history, and the two
    registries of live interactive messages with their expiry timers. */
module Bank {
  import opened Wrappers
  import opened Text
  import opened Roles
  import opened Ledger
  import opened History
  import opened Sessions

  /** Why a command did nothing (the source deletes the command message). */
  datatype Reason =
    | NotPermitted       // the role check failed
    | NoReplyTarget      // the command does not reply to a user's message
    | TargetIsBot
    | AlreadyInRole      // `co`/`prom`: the target already holds the role
    | NotInRole          // `dem`: the target holds neither role
    | AccountExists
    | MissingAmount
    | BadAmount          // `float()` raised, or the amount is not above zero
    | NoAccount
    | InsufficientFunds

  datatype Outcome = Applied | Rejected(reason: Reason)

  /** What an interactive message shows after a command or a click; the
      text layout is not modelled, only the data it is rendered from. */
  datatype Screen =
    | NoScreen                                                       // nothing sent, or the message deleted
    | AccountScreen(account: Account, lastTx: string)                // "account details"
    | HistoryScreen(entries: seq<Tx>, count: nat, balance: int, created: string)
    | PerAdminScreen(nets: map<string, int>, balance: int)
    | SummaryScreen(accounts: nat, total: int)                       // "the river bank"
    | DataListScreen(rows: seq<Account>)
    | AdminListScreen(admins: multiset<Handle>)                      // `sorted(ADMINS)`

  // ---------------------------------------------------------------------
  // Guard chains, in the order the handlers test them

  /** `co` (destination `CO_OWNERS`) and `prom` (destination `ADMINS`). */
  function PromoteGuard(coOwners: seq<Handle>, dest: seq<Handle>, user: User, target: Option<User>): Outcome {
    if !CanManageUsers(coOwners, user) then Rejected(NotPermitted)
    else if target.None? then Rejected(NoReplyTarget)
    else if target.value.isBot then Rejected(TargetIsBot)
    else if target.value.username in dest then Rejected(AlreadyInRole)
    else Applied
  }

  /** `dem`. */
  function DemoteGuard(admins: seq<Handle>, coOwners: seq<Handle>, user: User, target: Option<User>): Outcome {
    if !CanManageUsers(coOwners, user) then Rejected(NotPermitted)
    else if target.None? then Rejected(NoReplyTarget)
    else if target.value.isBot then Rejected(TargetIsBot)
    else if target.value.username !in admins && target.value.username !in coOwners then Rejected(NotInRole)
    else Applied
  }

  /** `new`. */
  function NewGuard(admins: seq<Handle>, coOwners: seq<Handle>, rows: seq<Account>, user: User, target: Option<User>): Outcome {
    if !CanModify(admins, coOwners, user) then Rejected(NotPermitted)
    else if target.None? then Rejected(NoReplyTarget)
    else if target.value.isBot then Rejected(TargetIsBot)
    else if HasAccount(rows, target.value.id) then Rejected(AccountExists)
    else Applied
  }

  /** The amount read from the first argument by the corrected guard. */
  function AmountOf(args: seq<Option<FloatValue>>): Option<int> {
    if |args| == 0 then None else PositiveAmount(args[0])
  }

  /** `add`, and `use` up to its balance check. */
  function CreditGuard(admins: seq<Handle>, coOwners: seq<Handle>, rows: seq<Account>, user: User,
                       target: Option<User>, args: seq<Option<FloatValue>>): Outcome {
    if !CanModify(admins, coOwners, user) then Rejected(NotPermitted)
    else if target.None? then Rejected(NoReplyTarget)
    else if |args| == 0 then Rejected(MissingAmount)
    else if AmountOf(args).None? then Rejected(BadAmount)
    else if !HasAccount(rows, target.value.id) then Rejected(NoAccount)
    else Applied
  }

  /** `use`. */
  function DebitGuard(admins: seq<Handle>, coOwners: seq<Handle>, rows: seq<Account>, user: User,
                      target: Option<User>, args: seq<Option<FloatValue>>): Outcome {
    var g := CreditGuard(admins, coOwners, rows, user, target, args);
    if g.Rejected? then g
    else if rows[FirstIndex(rows, target.value.id)].balance < AmountOf(args).value then Rejected(InsufficientFunds)
    else Applied
  }

  /** `reset`. */
  function ResetGuard(admins: seq<Handle>, coOwners: seq<Handle>, rows: seq<Account>, user: User, target: Option<User>): Outcome {
    if !CanModify(admins, coOwners, user) then Rejected(NotPermitted)
    else if target.None? then Rejected(NoReplyTarget)
    else if !HasAccount(rows, target.value.id) then Rejected(NoAccount)
    else Applied
  }

  /** A money command changes nothing unless the caller may modify, a reply
      target exists, an amount above zero is given and the target has an
      account; a debit in addition needs the balance to cover it. */
  lemma MoneyGuards(admins: seq<Handle>, coOwners: seq<Handle>, rows: seq<Account>, user: User,
                    target: Option<User>, args: seq<Option<FloatValue>>)
    ensures CreditGuard(admins, coOwners, rows, user, target, args).Applied? <==>
      CanModify(admins, coOwners, user) && target.Some? && AmountOf(args).Some?
      && HasAccount(rows, target.value.id)
    ensures DebitGuard(admins, coOwners, rows, user, target, args).Applied? <==>
      CanModify(admins, coOwners, user) && target.Some? && AmountOf(args).Some?
      && HasAccount(rows, target.value.id)
      && AmountOf(args).value <= rows[FirstIndex(rows, target.value.id)].balance
    ensures AmountOf(args).Some? ==> AmountOf(args).value > 0 && |args| > 0
  {
  }

  // ---------------------------------------------------------------------
  // Screens

  /** The account view of `id`, as `bal` and "go back" render it. */
  function AccountScreenOf(rows: seq<Account>, id: int): Screen {
    var k := FirstIndex(rows, id);
    if k < |rows| then AccountScreen(rows[k], DisplayLastTx(rows[k].lastTx)) else NoScreen
  }

  /** `show_transaction_history`: the newest ten, newest first, and the
      count of the stored entries. */
  function HistoryScreenOf(rows: seq<Account>, history: map<int, seq<Tx>>, id: int): Screen {
    var k := FirstIndex(rows, id);
    var txs := HistoryOf(history, id);
    if k < |rows| then HistoryScreen(Reverse(Newest(txs)), |txs|, rows[k].balance, rows[k].created) else NoScreen
  }

  /** `show_per_admin`. */
  function PerAdminScreenOf(rows: seq<Account>, history: map<int, seq<Tx>>, id: int): Screen {
    var k := FirstIndex(rows, id);
    if k < |rows| then PerAdminScreen(NetsOf(HistoryOf(history, id)), rows[k].balance) else NoScreen
  }

  /** What a button's action shows on its message. */
  function ScreenAfter(a: Action, rows: seq<Account>, history: map<int, seq<Tx>>, admins: seq<Handle>): Screen {
    match a
    case OpenHistory(t, _) => HistoryScreenOf(rows, history, t)
    case OpenPerAdmin(t, _) => PerAdminScreenOf(rows, history, t)
    case BackToHistory(t, _) => HistoryScreenOf(rows, history, t)
    case BackToBalance(t, _) => AccountScreenOf(rows, t)
    case CloseBalance(_, _) => NoScreen
    case OpenDataList(_) => DataListScreen(NewestAccounts(rows))
    case OpenAdminList(_) => AdminListScreen(multiset(admins))
    case BackToSummary(_) => SummaryScreen(|rows|, TotalBalance(rows))
    case CloseSummary(_) => NoScreen
  }

  /** The key a clicked action registers: a balance-side view is only
      re-rendered when the account it shows still exists. */
  function Registered(a: Action, msg: int, rows: seq<Account>): Option<Key> {
    if a.OnBalanceSide() && !HasAccount(rows, a.target) then None else Registers(a, msg)
  }

  function AsSet(k: Option<Key>): set<Key> {
    if k.Some? then {k.value} else {}
  }

  function AsMultiset(k: Option<Key>): multiset<Key> {
    if k.Some? then multiset{k.value} else multiset{}
  }

  /** Whose account `bal` shows: the replied-to user's, if the caller may
      modify accounts; otherwise none when replying, else the caller's own. */
  function BalTarget(admins: seq<Handle>, coOwners: seq<Handle>, user: User, reply: Option<User>): Option<User> {
    if reply.None? then Some(user)
    else if CanModify(admins, coOwners, user) then reply
    else None
  }

  /** Each registry holds its own kind of key, and every live message has
      a pending timer that will expire it. */
  predicate RegistryValid(balMessages: set<Key>, infobankMessages: set<Key>, timers: multiset<Key>) {
    (forall k :: k in balMessages ==> k.BalKey? && k in timers)
    && (forall k :: k in infobankMessages ==> k.InfoKey? && k in timers)
  }

  class Bot {
    var admins: seq<Handle>
    var coOwners: seq<Handle>
    var rows: seq<Account>
    var history: map<int, seq<Tx>>
    /** `BAL_MESSAGES` and `INFOBANK_MESSAGES`, by key. */
    var balMessages: set<Key>
    var infobankMessages: set<Key>
    /** The pending `schedule_auto_delete` tasks, one per scheduling. */
    var timers: multiset<Key>

    /** The roles are disjoint and without repeats, no balance is negative,
        no history is over ten entries, and every live message has a timer
        that will expire it. */
    ghost predicate Valid()
      reads this
    {
      RolesValid(admins, coOwners) && LedgerValid(rows) && HistoryValid(history)
      && RegistryValid(balMessages, infobankMessages, timers)
    }

    constructor ()
      ensures Valid()
      ensures admins == [] && coOwners == [] && rows == [] && history == map[]
      ensures balMessages == {} && infobankMessages == {} && timers == multiset{}
    {
      admins := [];
      coOwners := [];
      rows := [];
      history := map[];
      balMessages := {};
      infobankMessages := {};
      timers := multiset{};
    }

    // -------------------------------------------------------------------
    // Roles

    /** `co`: make the replied-to user a co-owner, leaving the managers. */
    method Co(user: User, target: Option<User>) returns (outcome: Outcome)
      requires Valid()
      modifies this`admins, this`coOwners
      ensures Valid()
      ensures outcome == PromoteGuard(old(coOwners), old(coOwners), user, target)
      ensures outcome.Rejected? ==> admins == old(admins) && coOwners == old(coOwners)
      ensures outcome.Applied? ==> var h := target.value.username;
        coOwners == old(coOwners) + [h]
        && admins == (if h in old(admins) then RemoveFirst(old(admins), h) else old(admins))
        && h !in admins
    {
      if !CanManageUsers(coOwners, user) {
        return Rejected(NotPermitted);
      }
      if target.None? {
        return Rejected(NoReplyTarget);
      }
      if target.value.isBot {
        return Rejected(TargetIsBot);
      }
      var h := target.value.username;
      if h in coOwners {
        return Rejected(AlreadyInRole);
      }
      PromotionKeepsRoles(coOwners, admins, h);
      admins := if h in admins then RemoveFirst(admins, h) else admins;
      coOwners := coOwners + [h];
      outcome := Applied;
    }

    /** `prom`: make the replied-to user a manager, leaving the co-owners. */
    method Prom(user: User, target: Option<User>) returns (outcome: Outcome)
      requires Valid()
      modifies this`admins, this`coOwners
      ensures Valid()
      ensures outcome == PromoteGuard(old(coOwners), old(admins), user, target)
      ensures outcome.Rejected? ==> admins == old(admins) && coOwners == old(coOwners)
      ensures outcome.Applied? ==> var h := target.value.username;
        admins == old(admins) + [h]
        && coOwners == (if h in old(coOwners) then RemoveFirst(old(coOwners), h) else old(coOwners))
        && h !in coOwners
    {
      if !CanManageUsers(coOwners, user) {
        return Rejected(NotPermitted);
      }
      if target.None? {
        return Rejected(NoReplyTarget);
      }
      if target.value.isBot {
        return Rejected(TargetIsBot);
      }
      var h := target.value.username;
      if h in admins {
        return Rejected(AlreadyInRole);
      }
      PromotionKeepsRoles(admins, coOwners, h);
      coOwners := if h in coOwners then RemoveFirst(coOwners, h) else coOwners;
      admins := admins + [h];
      outcome := Applied;
    }

    /** `dem`: take the replied-to user out of both lists. */
    method Dem(user: User, target: Option<User>) returns (outcome: Outcome)
      requires Valid()
      modifies this`admins, this`coOwners
      ensures Valid()
      ensures outcome == DemoteGuard(old(admins), old(coOwners), user, target)
      ensures outcome.Rejected? ==> admins == old(admins) && coOwners == old(coOwners)
      ensures outcome.Applied? ==> var h := target.value.username;
        admins == (if h in old(admins) then RemoveFirst(old(admins), h) else old(admins))
        && coOwners == (if h in old(coOwners) then RemoveFirst(old(coOwners), h) else old(coOwners))
        && h !in admins && h !in coOwners
        && forall y :: y != h ==> (y in admins <==> y in old(admins)) && (y in coOwners <==> y in old(coOwners))
    {
      if !CanManageUsers(coOwners, user) {
        return Rejected(NotPermitted);
      }
      if target.None? {
        return Rejected(NoReplyTarget);
      }
      if target.value.isBot {
        return Rejected(TargetIsBot);
      }
      var h := target.value.username;
      if h !in admins && h !in coOwners {
        return Rejected(NotInRole);
      }
      DemotionKeepsRoles(admins, coOwners, h);
      if h in admins {
        admins := RemoveFirst(admins, h);
      }
      if h in coOwners {
        coOwners := RemoveFirst(coOwners, h);
      }
      outcome := Applied;
    }

    // -------------------------------------------------------------------
    // Ledger

    /** Index of `id`'s row, through `find_user_row`. */
    method RowOf(id: int) returns (k: Option<nat>)
      ensures k.None? <==> !HasAccount(rows, id)
      ensures k.Some? ==> k.value == FirstIndex(rows, id) && k.value < |rows|
    {
      var row := FindUserRow(rows, id);
      if row.Some? {
        k := Some(row.value - FIRST_DATA_ROW);
        FirstIndexIsFirstMatch(rows, id, k.value);
      } else {
        k := None;
      }
    }

    /** `add_transaction`: append, then keep the newest ten. An entry of a
        positive amount keeps the history invariant. */
    method AddTransaction(id: int, t: Tx)
      modifies this`history
      ensures history == old(history)[id := Newest(HistoryOf(old(history), id) + [t])]
      ensures HistoryValid(old(history)) && t.amount > 0 ==> HistoryValid(history)
    {
      if HistoryValid(history) && t.amount > 0 {
        AppendKeepsHistory(history, id, t);
      }
      if id !in history {
        history := history[id := []];
      }
      var entries := history[id] + [t];
      history := history[id := entries];
      if |entries| > MAX_HISTORY {
        history := history[id := entries[|entries| - MAX_HISTORY..]];
      }
    }

    /** `new`: open an account at balance 0 for the replied-to user. */
    method New(user: User, target: Option<User>, now: string) returns (outcome: Outcome)
      requires Valid()
      modifies this`rows
      ensures Valid()
      ensures outcome == NewGuard(old(admins), old(coOwners), old(rows), user, target)
      ensures outcome.Rejected? ==> rows == old(rows)
      ensures outcome.Applied? ==> var u := target.value;
        rows == old(rows) + [Account(u.id, u.fullName, if HasHandle(u) then "@" + u.username.value else "",
                                     Link(u.id, u.firstName), 0, now, "")]
    {
      if !CanModify(admins, coOwners, user) {
        return Rejected(NotPermitted);
      }
      if target.None? {
        return Rejected(NoReplyTarget);
      }
      var u := target.value;
      if u.isBot {
        return Rejected(TargetIsBot);
      }
      var row := FindUserRow(rows, u.id);
      if row.Some? {
        FirstIndexIsFirstMatch(rows, u.id, row.value - FIRST_DATA_ROW);
        return Rejected(AccountExists);
      }
      var handle := if HasHandle(u) then "@" + u.username.value else "";
      var a := Account(u.id, u.fullName, handle, Link(u.id, u.firstName), 0, now, "");
      OpenKeepsLedger(rows, a);
      rows := rows + [a];
      outcome := Applied;
    }

    /** `add`: credit the replied-to account and record an "added" entry. */
    method Add(user: User, target: Option<User>, args: seq<Option<FloatValue>>, now: string) returns (outcome: Outcome)
      requires Valid()
      modifies this`rows, this`history
      ensures Valid()
      ensures outcome == CreditGuard(old(admins), old(coOwners), old(rows), user, target, args)
      ensures outcome.Rejected? ==> rows == old(rows) && history == old(history)
      ensures outcome.Applied? ==>
        var id := target.value.id;
        var i := FirstIndex(old(rows), id);
        var amount := AmountOf(args).value;
        rows == old(rows)[i := old(rows)[i].(balance := old(rows)[i].balance + amount, lastTx := now)]
        && history == old(history)[id := Newest(HistoryOf(old(history), id) + [Tx(now, amount, user.id, user.firstName, Added)])]
        && TotalBalance(rows) == TotalBalance(old(rows)) + amount
    {
      if !CanModify(admins, coOwners, user) {
        return Rejected(NotPermitted);
      }
      if target.None? {
        return Rejected(NoReplyTarget);
      }
      if |args| == 0 {
        return Rejected(MissingAmount);
      }
      var amount := AmountOf(args);
      if amount.None? {
        return Rejected(BadAmount);
      }
      var id := target.value.id;
      var k := RowOf(id);
      if k.None? {
        return Rejected(NoAccount);
      }
      var i := k.value;
      var a := rows[i].(balance := rows[i].balance + amount.value, lastTx := now);
      var t := Tx(now, amount.value, user.id, user.firstName, Added);
      LedgerEdits(rows, i, a);
      TotalAfterWrite(rows, i, a);
      AppendKeepsHistory(history, id, t);
      rows := rows[i := a];
      AddTransaction(id, t);
      outcome := Applied;
    }

    /** `use`: debit the replied-to account when its balance covers the
        amount, and record a "used" entry. */
    method Use(user: User, target: Option<User>, args: seq<Option<FloatValue>>, now: string) returns (outcome: Outcome)
      requires Valid()
      modifies this`rows, this`history
      ensures Valid()
      ensures outcome == DebitGuard(old(admins), old(coOwners), old(rows), user, target, args)
      ensures outcome.Rejected? ==> rows == old(rows) && history == old(history)
      ensures outcome.Applied? ==>
        var id := target.value.id;
        var i := FirstIndex(old(rows), id);
        var amount := AmountOf(args).value;
        rows == old(rows)[i := old(rows)[i].(balance := old(rows)[i].balance - amount, lastTx := now)]
        && history == old(history)[id := Newest(HistoryOf(old(history), id) + [Tx(now, amount, user.id, user.firstName, Used)])]
        && TotalBalance(rows) == TotalBalance(old(rows)) - amount
    {
      if !CanModify(admins, coOwners, user) {
        return Rejected(NotPermitted);
      }
      if target.None? {
        return Rejected(NoReplyTarget);
      }
      if |args| == 0 {
        return Rejected(MissingAmount);
      }
      var amount := AmountOf(args);
      if amount.None? {
        return Rejected(BadAmount);
      }
      var id := target.value.id;
      var k := RowOf(id);
      if k.None? {
        return Rejected(NoAccount);
      }
      var i := k.value;
      if rows[i].balance < amount.value {
        return Rejected(InsufficientFunds);
      }
      var a := rows[i].(balance := rows[i].balance - amount.value, lastTx := now);
      var t := Tx(now, amount.value, user.id, user.firstName, Used);
      LedgerEdits(rows, i, a);
      TotalAfterWrite(rows, i, a);
      AppendKeepsHistory(history, id, t);
      rows := rows[i := a];
      AddTransaction(id, t);
      outcome := Applied;
    }

    /** `reset`: set the replied-to account's balance to 0 and forget its
        history. */
    method Reset(user: User, target: Option<User>, now: string) returns (outcome: Outcome)
      requires Valid()
      modifies this`rows, this`history
      ensures Valid()
      ensures outcome == ResetGuard(old(admins), old(coOwners), old(rows), user, target)
      ensures outcome.Rejected? ==> rows == old(rows) && history == old(history)
      ensures outcome.Applied? ==>
        var id := target.value.id;
        var i := FirstIndex(old(rows), id);
        rows == old(rows)[i := old(rows)[i].(balance := 0, lastTx := now)]
        && history == old(history) - {id}
        && TotalBalance(rows) == TotalBalance(old(rows)) - old(rows)[i].balance
    {
      if !CanModify(admins, coOwners, user) {
        return Rejected(NotPermitted);
      }
      if target.None? {
        return Rejected(NoReplyTarget);
      }
      var id := target.value.id;
      var k := RowOf(id);
      if k.None? {
        return Rejected(NoAccount);
      }
      var i := k.value;
      var a := rows[i].(balance := 0, lastTx := now);
      LedgerEdits(rows, i, a);
      TotalAfterWrite(rows, i, a);
      rows := rows[i := a];
      if id in history {
        history := history - {id};
      }
      outcome := Applied;
    }

    /** `delete_user_account`: remove the first row of `id`, if any. */
    method DeleteUserAccount(id: int) returns (deleted: bool)
      requires Valid()
      modifies this`rows
      ensures Valid()
      ensures deleted <==> HasAccount(old(rows), id)
      ensures deleted ==> rows == DeleteRow(old(rows), FirstIndex(old(rows), id))
      ensures !deleted ==> rows == old(rows)
      ensures !HasAccount(rows, id)
    {
      var k := RowOf(id);
      if k.None? {
        return false;
      }
      LedgerEdits(rows, k.value, rows[k.value]);
      DeleteRemovesId(rows, k.value);
      rows := DeleteRow(rows, k.value);
      deleted := true;
    }

    /** `handle_left_member`: a member who leaves the group loses their
        account; their history entry is kept. */
    method HandleLeftMember(member: User) returns (outcome: Outcome)
      requires Valid()
      modifies this`rows
      ensures Valid()
      ensures outcome == (if HasAccount(old(rows), member.id) then Applied else Rejected(NoAccount))
      ensures outcome.Applied? ==> rows == DeleteRow(old(rows), FirstIndex(old(rows), member.id))
      ensures outcome.Rejected? ==> rows == old(rows)
      ensures !HasAccount(rows, member.id)
      ensures forall id :: id != member.id ==> (HasAccount(rows, id) <==> HasAccount(old(rows), id))
    {
      var k := RowOf(member.id);
      if k.None? {
        return Rejected(NoAccount);
      }
      DeleteRemovesId(rows, k.value);
      var deleted := DeleteUserAccount(member.id);
      outcome := Applied;
    }

    // -------------------------------------------------------------------
    // Interactive messages

    /** The account view of `t` opened by `o` on message `msg` (`bal`, and
        "go back" from the history): rendered and registered only when the
        account exists. */
    method ShowAccount(t: int, o: int, msg: int) returns (screen: Screen)
      requires Valid()
      modifies this`balMessages, this`timers
      ensures Valid()
      ensures screen == AccountScreenOf(rows, t)
      ensures var key := BalKey(BalanceView, t, o, msg);
        if HasAccount(rows, t) then balMessages == old(balMessages) + {key} && timers == old(timers) + multiset{key}
        else balMessages == old(balMessages) && timers == old(timers)
    {
      var k := RowOf(t);
      if k.None? {
        return NoScreen;
      }
      var a := rows[k.value];
      screen := AccountScreen(a, DisplayLastTx(a.lastTx));
      var key := BalKey(BalanceView, t, o, msg);
      balMessages := balMessages + {key};
      timers := timers + multiset{key};
    }

    /** `show_transaction_history`. */
    method ShowTransactionHistory(t: int, o: int, msg: int) returns (screen: Screen)
      requires Valid()
      modifies this`balMessages, this`timers
      ensures Valid()
      ensures screen == HistoryScreenOf(rows, history, t)
      ensures var key := BalKey(HistoryView, t, o, msg);
        if HasAccount(rows, t) then balMessages == old(balMessages) + {key} && timers == old(timers) + multiset{key}
        else balMessages == old(balMessages) && timers == old(timers)
    {
      var k := RowOf(t);
      if k.None? {
        return NoScreen;
      }
      var a := rows[k.value];
      var txs := if t in history then history[t] else [];
      screen := HistoryScreen(Reverse(Newest(txs)), |txs|, a.balance, a.created);
      var key := BalKey(HistoryView, t, o, msg);
      balMessages := balMessages + {key};
      timers := timers + multiset{key};
    }

    /** `show_per_admin`. */
    method ShowPerAdmin(t: int, o: int, msg: int) returns (screen: Screen)
      requires Valid()
      modifies this`balMessages, this`timers
      ensures Valid()
      ensures screen == PerAdminScreenOf(rows, history, t)
      ensures var key := BalKey(PerAdminView, t, o, msg);
        if HasAccount(rows, t) then balMessages == old(balMessages) + {key} && timers == old(timers) + multiset{key}
        else balMessages == old(balMessages) && timers == old(timers)
    {
      var k := RowOf(t);
      if k.None? {
        return NoScreen;
      }
      var txs := if t in history then history[t] else [];
      var nets := PerAdminNet(txs);
      assert nets == NetsOf(txs);
      screen := PerAdminScreen(nets, rows[k.value].balance);
      var key := BalKey(PerAdminView, t, o, msg);
      balMessages := balMessages + {key};
      timers := timers + multiset{key};
    }

    /** The summary view ("the river bank") opened by `o` on `msg`:
        `infobank`, and "go back" from the lists. */
    method ShowSummary(o: int, msg: int) returns (screen: Screen)
      requires Valid()
      modifies this`infobankMessages, this`timers
      ensures Valid()
      ensures screen == SummaryScreen(|rows|, TotalBalance(rows))
      ensures var key := InfoKey(SummaryView, o, msg);
        infobankMessages == old(infobankMessages) + {key} && timers == old(timers) + multiset{key}
    {
      screen := SummaryScreen(|rows|, TotalBalance(rows));
      var key := InfoKey(SummaryView, o, msg);
      infobankMessages := infobankMessages + {key};
      timers := timers + multiset{key};
    }

    /** A list view of the summary side: the data list or `show_admin_list`. */
    method ShowList(kind: InfoKind, o: int, msg: int) returns (screen: Screen)
      requires Valid()
      requires kind != SummaryView
      modifies this`infobankMessages, this`timers
      ensures Valid()
      ensures screen == if kind == DataListView then DataListScreen(NewestAccounts(rows)) else AdminListScreen(multiset(admins))
      ensures var key := InfoKey(kind, o, msg);
        infobankMessages == old(infobankMessages) + {key} && timers == old(timers) + multiset{key}
    {
      screen := if kind == DataListView then DataListScreen(NewestAccounts(rows)) else AdminListScreen(multiset(admins));
      var key := InfoKey(kind, o, msg);
      infobankMessages := infobankMessages + {key};
      timers := timers + multiset{key};
    }

    /** `bal`: the caller's own account, or (for a role holder) the account
        of the user replied to. */
    method Bal(user: User, reply: Option<User>, msg: int) returns (screen: Screen)
      requires Valid()
      modifies this`balMessages, this`timers
      ensures Valid()
      ensures var t := BalTarget(admins, coOwners, user, reply);
        var key := BalKey(BalanceView, if t.Some? then t.value.id else 0, user.id, msg);
        if t.Some? && HasAccount(rows, t.value.id) then
          screen == AccountScreenOf(rows, t.value.id)
          && balMessages == old(balMessages) + {key} && timers == old(timers) + multiset{key}
        else screen == NoScreen && balMessages == old(balMessages) && timers == old(timers)
    {
      if reply.Some? && !CanModify(admins, coOwners, user) {
        return NoScreen;
      }
      var target := if reply.Some? then reply.value else user;
      screen := ShowAccount(target.id, user.id, msg);
    }

    /** `infobank`: the summary, for the owner and the co-owners only. */
    method Infobank(user: User, msg: int) returns (screen: Screen)
      requires Valid()
      modifies this`infobankMessages, this`timers
      ensures Valid()
      ensures var key := InfoKey(SummaryView, user.id, msg);
        if CanManageUsers(coOwners, user) then
          screen == SummaryScreen(|rows|, TotalBalance(rows))
          && infobankMessages == old(infobankMessages) + {key} && timers == old(timers) + multiset{key}
        else screen == NoScreen && infobankMessages == old(infobankMessages) && timers == old(timers)
    {
      if !CanManageUsers(coOwners, user) {
        return NoScreen;
      }
      screen := ShowSummary(user.id, msg);
    }

    /** The re-rendering half of `button_callback`: show what the action
        asks for and register its key with a new timer. */
    method Render(a: Action, msg: int) returns (screen: Screen)
      requires Valid()
      modifies this`balMessages, this`infobankMessages, this`timers
      ensures Valid()
      ensures screen == ScreenAfter(a, rows, history, admins)
      ensures var reg := Registered(a, msg, rows);
        balMessages == (if a.OnBalanceSide() then old(balMessages) + AsSet(reg) else old(balMessages))
        && infobankMessages == (if a.OnBalanceSide() then old(infobankMessages) else old(infobankMessages) + AsSet(reg))
        && timers == old(timers) + AsMultiset(reg)
    {
      if a.OnBalanceSide() {
        screen := RenderBalance(a, msg);
      } else {
        screen := RenderSummary(a, msg);
      }
    }

    /** `show_transaction_history`, `show_per_admin`, the account view, or
        deleting the message. */
    method RenderBalance(a: Action, msg: int) returns (screen: Screen)
      requires Valid() && a.OnBalanceSide()
      modifies this`balMessages, this`timers
      ensures Valid()
      ensures screen == ScreenAfter(a, rows, history, admins)
      ensures balMessages == old(balMessages) + AsSet(Registered(a, msg, rows))
      ensures timers == old(timers) + AsMultiset(Registered(a, msg, rows))
    {
      match a
      case OpenHistory(t, o) =>
        screen := ShowTransactionHistory(t, o, msg);
      case OpenPerAdmin(t, o) =>
        screen := ShowPerAdmin(t, o, msg);
      case BackToHistory(t, o) =>
        screen := ShowTransactionHistory(t, o, msg);
      case BackToBalance(t, o) =>
        screen := ShowAccount(t, o, msg);
      case CloseBalance(_, _) =>
        screen := NoScreen;
    }

    /** The data list, `show_admin_list`, the summary, or deleting the
        message. */
    method RenderSummary(a: Action, msg: int) returns (screen: Screen)
      requires Valid() && !a.OnBalanceSide()
      modifies this`infobankMessages, this`timers
      ensures Valid()
      ensures screen == ScreenAfter(a, rows, history, admins)
      ensures infobankMessages == old(infobankMessages) + AsSet(Registered(a, msg, rows))
      ensures timers == old(timers) + AsMultiset(Registered(a, msg, rows))
    {
      match a
      case OpenDataList(o) =>
        screen := ShowList(DataListView, o, msg);
      case OpenAdminList(o) =>
        screen := ShowList(AdminListView, o, msg);
      case BackToSummary(o) =>
        screen := ShowSummary(o, msg);
      case CloseSummary(_) =>
        screen := NoScreen;
    }

    /** `button_callback` on message `msg`: a click that is malformed, by
        someone other than the view's owner, or of no known kind changes
        nothing; otherwise the keys of the views the action leaves are
        dropped and the view it opens is registered. */
    method Callback(data: string, clicker: int, msg: int) returns (decision: Decision, screen: Screen)
      requires Valid()
      modifies this`balMessages, this`infobankMessages, this`timers
      ensures Valid()
      ensures decision == Route(data, clicker)
      ensures !decision.Run? ==>
        screen == NoScreen && balMessages == old(balMessages)
        && infobankMessages == old(infobankMessages) && timers == old(timers)
      ensures decision.Run? ==>
        var a := decision.action;
        var reg := Registered(a, msg, rows);
        screen == ScreenAfter(a, rows, history, admins)
        && balMessages == (if a.OnBalanceSide() then old(balMessages) - Dropped(a, msg) + AsSet(reg) else old(balMessages))
        && infobankMessages == (if a.OnBalanceSide() then old(infobankMessages) else old(infobankMessages) - Dropped(a, msg) + AsSet(reg))
        && timers == old(timers) + AsMultiset(reg)
    {
      decision := Route(data, clicker);
      if !decision.Run? {
        return decision, NoScreen;
      }
      var a := decision.action;
      if a.OnBalanceSide() {
        balMessages := balMessages - Dropped(a, msg);
      } else {
        infobankMessages := infobankMessages - Dropped(a, msg);
      }
      screen := Render(a, msg);
    }

    /** `schedule_auto_delete` when its minute is up: the message is
        deleted and its key dropped only if the key is still registered. */
    method Fire(k: Key) returns (deleted: bool)
      requires Valid()
      requires k in timers
      modifies this`balMessages, this`infobankMessages, this`timers
      ensures Valid()
      ensures deleted <==> k in old(balMessages) || k in old(infobankMessages)
      ensures timers == old(timers) - multiset{k}
      ensures balMessages == old(balMessages) - {k}
      ensures infobankMessages == old(infobankMessages) - {k}
    {
      timers := timers - multiset{k};
      deleted := false;
      if k.BalKey? && k in balMessages {
        balMessages := balMessages - {k};
        deleted := true;
      } else if k.InfoKey? && k in infobankMessages {
        infobankMessages := infobankMessages - {k};
        deleted := true;
      }
    }
  }

  /** The owner of a view clicks one of the buttons the bot put on it: the
      button's own data always runs its action. */
  method Click(bot: Bot, a: Action, msg: int) returns (screen: Screen)
    requires bot.Valid()
    modifies bot`balMessages, bot`infobankMessages, bot`timers
    ensures bot.Valid()
    ensures var reg := Registered(a, msg, bot.rows);
      screen == ScreenAfter(a, bot.rows, bot.history, bot.admins)
      && bot.balMessages == (if a.OnBalanceSide() then old(bot.balMessages) - Dropped(a, msg) + AsSet(reg) else old(bot.balMessages))
      && bot.infobankMessages == (if a.OnBalanceSide() then old(bot.infobankMessages) else old(bot.infobankMessages) - Dropped(a, msg) + AsSet(reg))
      && bot.timers == old(bot.timers) + AsMultiset(reg)
  {
    RouteEncode(a, a.owner);
    var decision;
    decision, screen := bot.Callback(Encode(a), a.owner, msg);
  }

  /** A fresh bot where the owner has opened a member's account and shown
      its balance view on message `msg`. */
  method BalanceViewShown(owner: User, member: User, msg: int, now: string) returns (bot: Bot)
    requires IsOwner(owner) && !member.isBot
    ensures fresh(bot) && bot.Valid() && HasAccount(bot.rows, member.id)
    ensures bot.balMessages == {BalKey(BalanceView, member.id, owner.id, msg)}
    ensures bot.timers == multiset{BalKey(BalanceView, member.id, owner.id, msg)}
  {
    bot := new Bot();
    var created := bot.New(owner, Some(member), now);
    assert HasAccount(bot.rows, member.id);
    var shown := bot.Bal(owner, Some(member), msg);
  }

  /** From the balance view of `t` opened by `o` on `msg`, go to the
      history and back: the balance key is live again, now with two
      timers behind it, and the history key's timer is left over. */
  method HistoryAndBack(bot: Bot, t: int, o: int, msg: int)
    requires bot.Valid() && HasAccount(bot.rows, t)
    requires bot.balMessages == {BalKey(BalanceView, t, o, msg)}
    requires bot.timers == multiset{BalKey(BalanceView, t, o, msg)}
    modifies bot`balMessages, bot`infobankMessages, bot`timers
    ensures bot.Valid()
    ensures bot.balMessages == {BalKey(BalanceView, t, o, msg)}
    ensures bot.timers == multiset{BalKey(BalanceView, t, o, msg), BalKey(HistoryView, t, o, msg), BalKey(BalanceView, t, o, msg)}
  {
    var open := OpenHistory(t, o);
    var s1 := Click(bot, open, msg);
    assert Registered(open, msg, bot.rows) == Some(BalKey(HistoryView, t, o, msg));
    var back := BackToBalance(t, o);
    var s2 := Click(bot, back, msg);
    assert Registered(back, msg, bot.rows) == Some(BalKey(BalanceView, t, o, msg));
  }

  /** Expiry is guarded only by key presence. The owner opens a member's
      balance view on message `msg`, goes to the history and back: the
      balance key is registered again under a second timer. The first
      timer, still pending, deletes the re-rendered view early, and the
      second timer is left for a key already gone. */
  method StaleTimerExpiresReopenedView(owner: User, member: User, msg: int, now: string)
    returns (bot: Bot, deleted: bool)
    requires IsOwner(owner) && !member.isBot
    ensures deleted
    ensures BalKey(BalanceView, member.id, owner.id, msg) !in bot.balMessages
    ensures BalKey(BalanceView, member.id, owner.id, msg) in bot.timers
  {
    var key := BalKey(BalanceView, member.id, owner.id, msg);
    bot := BalanceViewShown(owner, member, msg, now);
    HistoryAndBack(bot, member.id, owner.id, msg);
    deleted := bot.Fire(key);
  }
}
