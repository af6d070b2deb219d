/** The account sheet: one row per account, columns A..G, read and written
    one command at a time. Row 1 of the sheet is its header; the data rows
    follow from row 2. */
module Ledger {
  import opened Wrappers
  import opened Text

  /** One data row: id, full name, "@username" (or ""), HTML link,
      balance, created-at text and last-transaction text. */
  datatype Account = Account(
    id: int, name: string, username: string, link: string,
    balance: int, created: string, lastTx: string)

  /** Sheet row number of the first data row (row 1 is the header). */
  const FIRST_DATA_ROW: nat := 2

  /** The ledger invariant: no balance is negative and no id has two rows. */
  predicate LedgerValid(rows: seq<Account>) {
    (forall i :: 0 <= i < |rows| ==> rows[i].balance >= 0)
    && (forall i, j :: 0 <= i < j < |rows| ==> rows[i].id != rows[j].id)
  }

  /** Index of the first data row holding `id`, or `|rows|` when none does. */
  function FirstIndex(rows: seq<Account>, id: int): (k: nat)
    ensures k <= |rows|
    ensures k < |rows| ==> rows[k].id == id
    ensures forall j :: 0 <= j < k ==> rows[j].id != id
  {
    if |rows| == 0 then 0
    else if rows[0].id == id then 0
    else 1 + FirstIndex(rows[1..], id)
  }

  predicate HasAccount(rows: seq<Account>, id: int) {
    FirstIndex(rows, id) < |rows|
  }

  /** `find_user_row`: a first-match linear scan of column A that answers
      the 1-based sheet row, or None when no row holds the id. */
  method FindUserRow(rows: seq<Account>, id: int) returns (row: Option<nat>)
    ensures row.None? <==> forall j :: 0 <= j < |rows| ==> rows[j].id != id
    ensures row.Some? ==> var k := row.value - FIRST_DATA_ROW;
      row.value >= FIRST_DATA_ROW && k < |rows| && rows[k].id == id
      && (forall j :: 0 <= j < k ==> rows[j].id != id)
  {
    var i := 0;
    while i < |rows|
      invariant 0 <= i <= |rows|
      invariant forall j :: 0 <= j < i ==> rows[j].id != id
    {
      if rows[i].id == id {
        return Some(i + FIRST_DATA_ROW);
      }
      i := i + 1;
    }
    return None;
  }

  /** What `find_user_row` answers is `FirstIndex` in sheet-row terms. */
  lemma {:induction false} FirstIndexIsFirstMatch(rows: seq<Account>, id: int, k: nat)
    requires k < |rows| && rows[k].id == id
    requires forall j :: 0 <= j < k ==> rows[j].id != id
    ensures FirstIndex(rows, id) == k
  {
    if k > 0 {
      FirstIndexIsFirstMatch(rows[1..], id, k - 1);
    }
  }

  /** With unique ids the first match is the only match. */
  lemma UniqueRow(rows: seq<Account>, id: int, k: nat)
    requires LedgerValid(rows)
    requires k < |rows| && rows[k].id == id
    ensures FirstIndex(rows, id) == k
  {
    FirstIndexIsFirstMatch(rows, id, k);
  }

  /** Removes data row `k` (`sheet.delete_rows(k + 2)`): the rows after it move up. */
  function DeleteRow(rows: seq<Account>, k: nat): (r: seq<Account>)
    requires k < |rows|
    ensures |r| == |rows| - 1
    ensures forall i :: 0 <= i < |r| ==> r[i] == rows[if i < k then i else i + 1]
  {
    rows[..k] + rows[k + 1..]
  }

  /** Deleting a row, or rewriting a row in place with the same id and a
      balance at or above zero, keeps the ledger invariant. */
  lemma {:induction false} LedgerEdits(rows: seq<Account>, k: nat, a: Account)
    requires LedgerValid(rows) && k < |rows|
    ensures LedgerValid(DeleteRow(rows, k))
    ensures a.id == rows[k].id && a.balance >= 0 ==> LedgerValid(rows[k := a])
  {
    var d := DeleteRow(rows, k);
    forall i, j | 0 <= i < j < |d| ensures d[i].id != d[j].id {
      var i' := if i < k then i else i + 1;
      var j' := if j < k then j else j + 1;
      assert d[i] == rows[i'] && d[j] == rows[j'];
    }
    forall i | 0 <= i < |d| ensures d[i].balance >= 0 {
      assert d[i] == rows[if i < k then i else i + 1];
    }
  }

  /** With unique ids, deleting the row of an id leaves no row for it and
      keeps the row of every other id. */
  lemma DeleteRemovesId(rows: seq<Account>, k: nat)
    requires LedgerValid(rows) && k < |rows|
    ensures !HasAccount(DeleteRow(rows, k), rows[k].id)
    ensures forall id :: id != rows[k].id ==> (HasAccount(DeleteRow(rows, k), id) <==> HasAccount(rows, id))
  {
    var d := DeleteRow(rows, k);
    forall j | 0 <= j < |d| ensures d[j].id != rows[k].id {
      assert d[j] == rows[if j < k then j else j + 1];
    }
    forall id | id != rows[k].id ensures HasAccount(d, id) <==> HasAccount(rows, id) {
      var i := FirstIndex(rows, id);
      if i < |rows| {
        assert i != k;
        assert d[if i < k then i else i - 1] == rows[i];
      }
      var i' := FirstIndex(d, id);
      if i' < |d| {
        assert d[i'] == rows[if i' < k then i' else i' + 1];
      }
    }
  }

  /** Appending a row for an id without one, at a balance not below zero,
      keeps the ledger invariant. */
  lemma OpenKeepsLedger(rows: seq<Account>, a: Account)
    requires LedgerValid(rows) && a.balance >= 0 && !HasAccount(rows, a.id)
    ensures LedgerValid(rows + [a])
  {
  }

  /** Sum of all balances, the "total value" of the bank summary. */
  function TotalBalance(rows: seq<Account>): int {
    if |rows| == 0 then 0 else TotalBalance(rows[..|rows| - 1]) + rows[|rows| - 1].balance
  }

  lemma {:induction false} TotalBalanceNonNegative(rows: seq<Account>)
    requires forall i :: 0 <= i < |rows| ==> rows[i].balance >= 0
    ensures TotalBalance(rows) >= 0
  {
    if |rows| > 0 {
      TotalBalanceNonNegative(rows[..|rows| - 1]);
    }
  }

  /** Rewriting one row moves the total by exactly that row's change. */
  lemma {:induction false} TotalAfterWrite(rows: seq<Account>, k: nat, a: Account)
    requires k < |rows|
    ensures TotalBalance(rows[k := a]) == TotalBalance(rows) - rows[k].balance + a.balance
  {
    var n := |rows| - 1;
    if k < n {
      TotalAfterWrite(rows[..n], k, a);
      assert rows[k := a][..n] == rows[..n][k := a];
    } else {
      assert rows[k := a][..n] == rows[..n];
    }
  }

  /** Deleting a row takes exactly its balance off the total. */
  lemma {:induction false} TotalAfterDelete(rows: seq<Account>, k: nat)
    requires k < |rows|
    ensures TotalBalance(DeleteRow(rows, k)) == TotalBalance(rows) - rows[k].balance
  {
    var n := |rows| - 1;
    if k < n {
      TotalAfterDelete(rows[..n], k);
      assert DeleteRow(rows, k)[..n - 1] == DeleteRow(rows[..n], k);
      assert DeleteRow(rows, k)[n - 1] == rows[n];
    } else {
      assert DeleteRow(rows, k) == rows[..n];
    }
  }

  const DATA_LIST_LIMIT: nat := 1000

  /** The data list: the rows newest first (`reverse()`), at most the first thousand. */
  function NewestAccounts(rows: seq<Account>): (r: seq<Account>)
    ensures |r| == if |rows| < DATA_LIST_LIMIT then |rows| else DATA_LIST_LIMIT
    ensures forall k :: 0 <= k < |r| ==> r[k] == rows[|rows| - 1 - k]
  {
    var newestFirst := Reverse(rows);
    if |newestFirst| > DATA_LIST_LIMIT then newestFirst[..DATA_LIST_LIMIT] else newestFirst
  }

  /** The HTML link stored in column D: `<a href="tg://user?id=ID">NAME</a>`. */
  function Link(id: int, firstName: string): string {
    "<a href=\"tg://user?id=" + IntToString(id) + "\">" + firstName + "</a>"
  }

  const BULLET: char := '\U{2022}'

  /** The "last transaction" shown on the account view: an empty cell reads
      "Never"; a cell holding a bullet is cut at the first bullet and stripped. */
  function DisplayLastTx(cell: string): (r: string)
    ensures BULLET !in r
    ensures cell == "" ==> r == "Never"
    ensures cell != "" && BULLET !in cell ==> r == cell
    ensures BULLET in cell ==> var k := |Split(cell, BULLET)[0]|;
      k < |cell| && cell[k] == BULLET && BULLET !in cell[..k] && r == Strip(cell[..k])
  {
    var shown := if cell == "" then "Never" else cell;
    if BULLET in shown then
      var head := Split(shown, BULLET)[0];
      var r := Strip(head);
      assert forall c :: c in r ==> c in head;
      r
    else shown
  }

  /** A cell holding a bullet shows the stripped text before its first bullet. */
  lemma BulletCellShowsHead(head: string, rest: string)
    requires BULLET !in head
    ensures DisplayLastTx(head + [BULLET] + rest) == Strip(head)
  {
    SplitAfterPiece(head, BULLET, rest);
  }

  /** A cell that starts with a file separator, then a date, a space and
      a bullet shows just the date, as `split("\u2022")[0].strip()` gives it. */
  lemma SeparatorCellShowsDate(date: string, rest: string)
    requires |date| > 0 && !IsSpace(date[0]) && !IsSpace(date[|date| - 1]) && BULLET !in date
    ensures DisplayLastTx(['\U{1C}'] + date + [' ', BULLET] + rest) == date
  {
    var head := ['\U{1C}'] + date + [' '];
    assert ['\U{1C}'] + date + [' ', BULLET] + rest == head + [BULLET] + rest;
    BulletCellShowsHead(head, rest);
    StripSeparatorPadded(date);
  }

  /** A value Python's `float()` can give for an amount argument, in a
      model where finite amounts are whole numbers. */
  datatype FloatValue = Finite(v: int) | Infinity(negative: bool) | NaN

  /** Python `x <= 0`: false for NaN, true only for negative infinity. */
  predicate AtMostZero(x: FloatValue) {
    match x
    case Finite(v) => v <= 0
    case Infinity(negative) => negative
    case NaN => false
  }

  /** Python `x >= 0`. */
  predicate AtLeastZero(x: FloatValue) {
    match x
    case Finite(v) => v >= 0
    case Infinity(negative) => !negative
    case NaN => false
  }

  /** Python `balance + x` for a finite balance. */
  function PlusFloat(balance: int, x: FloatValue): FloatValue {
    match x
    case Finite(v) => Finite(balance + v)
    case _ => x
  }

  /** The amount guard of `add` and `use` as written: the argument must
      parse (`float(...)`, None when it raises) and `amount <= 0` must be false. */
  predicate AmountAcceptedAsWritten(arg: Option<FloatValue>) {
    arg.Some? && !AtMostZero(arg.value)
  }

  /** The text "nan" passes the guard as written, and crediting it leaves a
      balance that is not at least zero. */
  lemma NaNAmountPassesGuard(balance: int)
    requires balance >= 0
    ensures AmountAcceptedAsWritten(Some(NaN))
    ensures !AtLeastZero(PlusFloat(balance, NaN))
  {
  }

  /** The amount guard the model uses: a finite amount above zero. It
      accepts exactly what the written guard accepts and yields a finite
      balance, and the balance it credits to any balance at or above zero
      stays finite and at or above zero. */
  function PositiveAmount(arg: Option<FloatValue>): (r: Option<int>)
    ensures r.Some? <==> AmountAcceptedAsWritten(arg) && PlusFloat(0, arg.value).Finite?
    ensures r.Some? ==> r.value > 0 && arg == Some(Finite(r.value))
    ensures r.Some? ==> forall balance: int :: balance >= 0 ==>
      PlusFloat(balance, arg.value).Finite? && AtLeastZero(PlusFloat(balance, arg.value))
  {
    if arg.Some? && arg.value.Finite? && arg.value.v > 0 then Some(arg.value.v) else None
  }

  /** The corrected guard accepts exactly what the written one accepts,
      except NaN and positive infinity. */
  lemma CorrectedAmountGuard(arg: Option<FloatValue>)
    ensures PositiveAmount(arg).Some? ==> AmountAcceptedAsWritten(arg)
    ensures AmountAcceptedAsWritten(arg) && PositiveAmount(arg).None?
      <==> arg == Some(NaN) || arg == Some(Infinity(false))
  {
  }
}
