/** `TRANSACTION_HISTORY`: per account id, the newest transactions (at most
    ten), oldest first; and the two views built from it. */
module History {
  import opened Wrappers
  import opened Text

  /** The `type` field: "added", "used", or any other text. */
  datatype TxKind = Added | Used | OtherKind(text: string)

  datatype Tx = Tx(timestamp: string, amount: int, executorId: int, executorName: string, kind: TxKind)

  const MAX_HISTORY: nat := 10

  /** `entries[-10:]`: the newest ten entries, or all of them when fewer. */
  function Newest(entries: seq<Tx>): (r: seq<Tx>)
    ensures |r| == if |entries| > MAX_HISTORY then MAX_HISTORY else |entries|
    ensures forall k :: 0 <= k < |r| ==> r[k] == entries[|entries| - |r| + k]
  {
    if |entries| > MAX_HISTORY then entries[|entries| - MAX_HISTORY..] else entries
  }

  /** The history of `id`, `TRANSACTION_HISTORY.get(id, [])`. */
  function HistoryOf(h: map<int, seq<Tx>>, id: int): seq<Tx> {
    if id in h then h[id] else []
  }

  /** Every stored history holds at most ten entries, each of a positive amount. */
  predicate HistoryValid(h: map<int, seq<Tx>>) {
    forall id :: id in h ==> |h[id]| <= MAX_HISTORY && forall t :: t in h[id] ==> t.amount > 0
  }

  /** One `add_transaction` on a history: append, then keep the newest ten.
      The result is the last min(n + 1, 10) entries of `entries + [t]`; once
      ten are stored, the oldest is the one evicted. */
  lemma AppendEvictsOldest(entries: seq<Tx>, t: Tx)
    requires |entries| <= MAX_HISTORY
    ensures var r := Newest(entries + [t]);
      |r| == (if |entries| < MAX_HISTORY then |entries| + 1 else MAX_HISTORY)
      && r[|r| - 1] == t
      && (|entries| < MAX_HISTORY ==> r == entries + [t])
      && (|entries| == MAX_HISTORY ==> r == entries[1..] + [t])
  {
  }

  /** One `add_transaction` of a positive amount keeps every history
      within the cap and of positive amounts; so does deleting an entry. */
  lemma AppendKeepsHistory(h: map<int, seq<Tx>>, id: int, t: Tx)
    requires HistoryValid(h) && t.amount > 0
    ensures HistoryValid(h[id := Newest(HistoryOf(h, id) + [t])])
    ensures HistoryValid(h - {id})
  {
    var s := HistoryOf(h, id) + [t];
    forall x | x in Newest(s) ensures x.amount > 0 {
      var i :| 0 <= i < |Newest(s)| && Newest(s)[i] == x;
      assert x == s[if |s| > MAX_HISTORY then |s| - MAX_HISTORY + i else i];
    }
  }

  /** Trimming before an append changes nothing once the newest ten are kept. */
  lemma NewestOfAppend(s: seq<Tx>, t: Tx)
    ensures Newest(Newest(s) + [t]) == Newest(s + [t])
  {
    if |s| > MAX_HISTORY {
      assert (s + [t])[|s| + 1 - MAX_HISTORY..] == (Newest(s) + [t])[1..];
    }
  }

  /** The history after appending `txs` one `add_transaction` at a time. */
  function Replay(entries: seq<Tx>, txs: seq<Tx>): seq<Tx>
    decreases |txs|
  {
    if |txs| == 0 then entries else Replay(Newest(entries + [txs[0]]), txs[1..])
  }

  /** However many transactions are appended, the stored history is the
      newest ten of everything ever appended, in order: eleven credits on a
      fresh account leave credits 2..11. */
  lemma {:induction false} ReplayKeepsNewest(entries: seq<Tx>, txs: seq<Tx>)
    ensures Replay(Newest(entries), txs) == Newest(entries + txs)
    decreases |txs|
  {
    if |txs| == 0 {
      assert entries + txs == entries;
    } else {
      var t := txs[0];
      calc {
        Replay(Newest(entries), txs);
        Replay(Newest(Newest(entries) + [t]), txs[1..]);
        { NewestOfAppend(entries, t); }
        Replay(Newest(entries + [t]), txs[1..]);
        { ReplayKeepsNewest(entries + [t], txs[1..]); }
        Newest(entries + [t] + txs[1..]);
        { assert entries + [t] + txs[1..] == entries + txs; }
        Newest(entries + txs);
      }
    }
  }

  /** The signed effect of one entry: +amount for "added", -amount for
      "used", nothing for any other type. */
  function Signed(t: Tx): int {
    match t.kind
    case Added => t.amount
    case Used => -t.amount
    case OtherKind(_) => 0
  }

  /** The per-admin net of `name`: the signed amounts of the entries that
      `name` executed. */
  function NetOf(txs: seq<Tx>, name: string): int {
    if |txs| == 0 then 0
    else
      var last := txs[|txs| - 1];
      NetOf(txs[..|txs| - 1], name) + (if last.executorName == name then Signed(last) else 0)
  }

  function Names(txs: seq<Tx>): set<string> {
    set i | 0 <= i < |txs| :: txs[i].executorName
  }

  /** The per-admin table: every executor name with its net. */
  function NetsOf(txs: seq<Tx>): map<string, int> {
    map n | n in Names(txs) :: NetOf(txs, n)
  }

  /** The loop of `show_per_admin`: one key per executor name, its value
      the net of that name over the whole retained history. */
  method PerAdminNet(txs: seq<Tx>) returns (nets: map<string, int>)
    ensures nets.Keys == Names(txs)
    ensures forall n :: n in nets ==> nets[n] == NetOf(txs, n)
  {
    nets := map[];
    for i := 0 to |txs|
      invariant nets.Keys == Names(txs[..i])
      invariant forall n :: n in nets ==> nets[n] == NetOf(txs[..i], n)
    {
      var t := txs[i];
      var name := t.executorName;
      ghost var before := nets;
      assert txs[..i + 1][..i] == txs[..i];
      if name !in nets {
        nets := nets[name := 0];
      }
      if t.kind.Added? {
        nets := nets[name := nets[name] + t.amount];
      } else if t.kind.Used? {
        nets := nets[name := nets[name] - t.amount];
      }
      assert Names(txs[..i + 1]) == Names(txs[..i]) + {name} by {
        forall n | n in Names(txs[..i + 1]) ensures n in Names(txs[..i]) + {name} {
          var j :| 0 <= j < i + 1 && txs[..i + 1][j].executorName == n;
          if j < i { assert txs[..i][j].executorName == n; }
        }
        forall n | n in Names(txs[..i]) ensures n in Names(txs[..i + 1]) {
          var j :| 0 <= j < i && txs[..i][j].executorName == n;
          assert txs[..i + 1][j].executorName == n;
        }
        assert txs[..i + 1][i].executorName == name;
      }
      forall n | n in nets ensures nets[n] == NetOf(txs[..i + 1], n) {
        assert NetOf(txs[..i + 1], n) == NetOf(txs[..i], n) + (if name == n then Signed(t) else 0);
        if n != name {
          assert nets[n] == before[n];
        } else if name !in before {
          NetOfAbsent(txs[..i], name);
        }
      }
    }
    assert txs[..|txs|] == txs;
  }

  /** The net of a name splits over the two halves of a history. */
  lemma {:induction false} NetOfConcat(a: seq<Tx>, b: seq<Tx>, name: string)
    ensures NetOf(a + b, name) == NetOf(a, name) + NetOf(b, name)
    decreases |b|
  {
    if |b| == 0 {
      assert a + b == a;
    } else {
      var b' := b[..|b| - 1];
      NetOfConcat(a, b', name);
      assert (a + b)[..|a + b| - 1] == a + b';
    }
  }

  /** A name that executed only entries of other types has net 0, and so
      does a name that executed nothing. */
  lemma {:induction false} NetOfOthersOnly(txs: seq<Tx>, name: string)
    requires forall i :: 0 <= i < |txs| && txs[i].executorName == name ==> txs[i].kind.OtherKind?
    ensures NetOf(txs, name) == 0
  {
    if |txs| > 0 {
      NetOfOthersOnly(txs[..|txs| - 1], name);
    }
  }

  /** A name that executed nothing in the history has net 0. */
  lemma {:induction false} NetOfAbsent(txs: seq<Tx>, name: string)
    requires name !in Names(txs)
    ensures NetOf(txs, name) == 0
  {
    if |txs| > 0 {
      var p := txs[..|txs| - 1];
      forall n | n in Names(p) ensures n in Names(txs) {
        var j :| 0 <= j < |p| && p[j].executorName == n;
        assert txs[j] == p[j];
      }
      assert txs[|txs| - 1].executorName in Names(txs);
      NetOfAbsent(p, name);
    }
  }

  /** The history view, `reversed(transactions[-10:])`: at most ten
      entries, newest first. */
  lemma RecentNewestFirst(txs: seq<Tx>)
    ensures var v := Reverse(Newest(txs));
      |v| == (if |txs| < MAX_HISTORY then |txs| else MAX_HISTORY)
      && forall k :: 0 <= k < |v| ==> v[k] == txs[|txs| - 1 - k]
  {
    var r := Newest(txs);
    var v := Reverse(r);
    if |txs| <= MAX_HISTORY {
      assert r == txs;
    } else {
      forall k | 0 <= k < |v| ensures v[k] == txs[|txs| - 1 - k] {
        assert v[k] == r[MAX_HISTORY - 1 - k];
      }
    }
  }
}
