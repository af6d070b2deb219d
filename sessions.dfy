/** Interactive sessions: the keys of `BAL_MESSAGES` and
    `INFOBANK_MESSAGES`, the callback data the bot puts on its buttons, and
    how `button_callback` reads that data (owner check, then dispatch). */
module Sessions {
  import opened Wrappers
  import opened Text

  datatype BalKind = BalanceView | HistoryView | PerAdminView
  datatype InfoKind = SummaryView | DataListView | AdminListView

  /** A registry key. `BalKey` is "bal_", "history_" or "per_admin_" +
      "{target}_{owner}_{message}" in `BAL_MESSAGES`; `InfoKey` is
      "infobank_", "data_list_" or "admin_list_" + "{owner}_{message}" in
      `INFOBANK_MESSAGES`. Ids hold no "_", so distinct keys are distinct strings. */
  datatype Key =
    | BalKey(bkind: BalKind, target: int, owner: int, msg: int)
    | InfoKey(ikind: InfoKind, owner: int, msg: int)

  /** What a button asks for. The balance-side actions name the account
      shown and the user who opened the view; the summary-side ones only
      that user. */
  datatype Action =
    | OpenHistory(target: int, owner: int)    // "history_{t}_{o}"
    | OpenPerAdmin(target: int, owner: int)   // "per_admin_{t}_{o}"
    | BackToHistory(target: int, owner: int)  // "history_back_{t}_{o}"
    | BackToBalance(target: int, owner: int)  // "bal_back_{t}_{o}"
    | CloseBalance(target: int, owner: int)   // "close_bal_{t}_{o}"
    | OpenDataList(owner: int)                // "data_list_{o}"
    | OpenAdminList(owner: int)               // "admin_list_{o}"
    | BackToSummary(owner: int)               // "go_back_{o}"
    | CloseSummary(owner: int)                // "close_{o}"
  {
    predicate OnBalanceSide() {
      OpenHistory? || OpenPerAdmin? || BackToHistory? || BackToBalance? || CloseBalance?
    }
  }

  /** How `button_callback` ends: a ValueError or IndexError while reading
      the data; a click by someone other than the view's owner; data with
      no known prefix; or an action to run. */
  datatype Decision = Malformed | Unauthorized | Unmatched | Run(action: Action)

  /** The prefixes whose last field is checked against the clicker. */
  predicate BalancePrefixed(data: string) {
    StartsWith(data, "history_") || StartsWith(data, "close_bal_") || StartsWith(data, "per_admin_")
    || StartsWith(data, "history_back_") || StartsWith(data, "bal_back_")
  }

  predicate SummaryPrefixed(data: string) {
    StartsWith(data, "data_list_") || StartsWith(data, "go_back_") || StartsWith(data, "close_")
    || StartsWith(data, "admin_list_")
  }

  /** `int(data.split("_")[-1])`. */
  function LastId(data: string): Option<int> {
    var parts := Split(data, '_');
    ParseInt(parts[|parts| - 1])
  }

  /** `int(parts[i])` and `int(parts[i + 1])`, None on either error. */
  function IdsAt(parts: seq<string>, i: nat): Option<(int, int)> {
    if i + 1 < |parts| then
      match (ParseInt(parts[i]), ParseInt(parts[i + 1]))
      case (Some(t), Some(o)) => Some((t, o))
      case _ => None
    else None
  }

  /** The dispatch chain of `button_callback`, in its order: "history_" but
      not "history_back_", "per_admin_", "history_back_", "bal_back_",
      "close_bal_", then "data_list_", "admin_list_", "go_back_", "close_". */
  function Dispatch(data: string): (r: Decision)
    ensures r != Unauthorized
    ensures r == Unmatched <==> !BalancePrefixed(data) && !SummaryPrefixed(data)
  {
    var parts := Split(data, '_');
    if StartsWith(data, "history_") && !StartsWith(data, "history_back_") then
      match IdsAt(parts, 1) case Some((t, o)) => Run(OpenHistory(t, o)) case None => Malformed
    else if StartsWith(data, "per_admin_") then
      match IdsAt(parts, 2) case Some((t, o)) => Run(OpenPerAdmin(t, o)) case None => Malformed
    else if StartsWith(data, "history_back_") then
      match IdsAt(parts, 2) case Some((t, o)) => Run(BackToHistory(t, o)) case None => Malformed
    else if StartsWith(data, "bal_back_") then
      match IdsAt(parts, 2) case Some((t, o)) => Run(BackToBalance(t, o)) case None => Malformed
    else if StartsWith(data, "close_bal_") then
      match IdsAt(parts, 2) case Some((t, o)) => Run(CloseBalance(t, o)) case None => Malformed
    else if StartsWith(data, "data_list_") then
      match LastId(data) case Some(o) => Run(OpenDataList(o)) case None => Malformed
    else if StartsWith(data, "admin_list_") then
      match LastId(data) case Some(o) => Run(OpenAdminList(o)) case None => Malformed
    else if StartsWith(data, "go_back_") then
      match LastId(data) case Some(o) => Run(BackToSummary(o)) case None => Malformed
    else if StartsWith(data, "close_") then
      match LastId(data) case Some(o) => Run(CloseSummary(o)) case None => Malformed
    else Unmatched
  }

  /** The owner check: the last field must read as the clicker's id. */
  function Authorize(data: string, clicker: int): (r: Decision)
    ensures r == Unauthorized <==> LastId(data).Some? && LastId(data).value != clicker
    ensures r.Run? ==> LastId(data) == Some(clicker)
  {
    match LastId(data)
    case None => Malformed
    case Some(o) => if clicker != o then Unauthorized else Dispatch(data)
  }

  /** `button_callback` up to the point where it changes anything: the
      balance-side owner check only runs when the data has three fields or
      more, the summary-side one always. */
  function Route(data: string, clicker: int): Decision {
    if BalancePrefixed(data) then
      if |Split(data, '_')| >= 3 then Authorize(data, clicker) else Dispatch(data)
    else if SummaryPrefixed(data) then Authorize(data, clicker)
    else Dispatch(data)
  }

  /** The registry keys an action removes for the message `msg` it was clicked on. */
  function Dropped(a: Action, msg: int): set<Key> {
    match a
    case OpenHistory(t, o) => {BalKey(BalanceView, t, o, msg)}
    case OpenPerAdmin(t, o) => {BalKey(HistoryView, t, o, msg)}
    case BackToHistory(t, o) => {BalKey(PerAdminView, t, o, msg)}
    case BackToBalance(t, o) => {BalKey(HistoryView, t, o, msg)}
    case CloseBalance(t, o) =>
      {BalKey(BalanceView, t, o, msg), BalKey(HistoryView, t, o, msg), BalKey(PerAdminView, t, o, msg)}
    case OpenDataList(o) => {InfoKey(SummaryView, o, msg)}
    case OpenAdminList(o) => {InfoKey(SummaryView, o, msg)}
    case BackToSummary(o) => {InfoKey(DataListView, o, msg), InfoKey(AdminListView, o, msg)}
    case CloseSummary(o) =>
      {InfoKey(SummaryView, o, msg), InfoKey(DataListView, o, msg), InfoKey(AdminListView, o, msg)}
  }

  /** The key an action registers (with a fresh expiry timer) when it
      re-renders the message; the close actions register nothing. */
  function Registers(a: Action, msg: int): Option<Key> {
    match a
    case OpenHistory(t, o) => Some(BalKey(HistoryView, t, o, msg))
    case OpenPerAdmin(t, o) => Some(BalKey(PerAdminView, t, o, msg))
    case BackToHistory(t, o) => Some(BalKey(HistoryView, t, o, msg))
    case BackToBalance(t, o) => Some(BalKey(BalanceView, t, o, msg))
    case CloseBalance(_, _) => None
    case OpenDataList(o) => Some(InfoKey(DataListView, o, msg))
    case OpenAdminList(o) => Some(InfoKey(AdminListView, o, msg))
    case BackToSummary(o) => Some(InfoKey(SummaryView, o, msg))
    case CloseSummary(_) => None
  }

  /** The words of the tag, the pieces `split("_")` cuts it into. */
  function TagWords(a: Action): (w: seq<string>)
    ensures 1 <= |w| <= 2 && forall i :: 0 <= i < |w| ==> '_' !in w[i]
  {
    match a
    case OpenHistory(_, _) => ["history"]
    case OpenPerAdmin(_, _) => ["per", "admin"]
    case BackToHistory(_, _) => ["history", "back"]
    case BackToBalance(_, _) => ["bal", "back"]
    case CloseBalance(_, _) => ["close", "bal"]
    case OpenDataList(_) => ["data", "list"]
    case OpenAdminList(_) => ["admin", "list"]
    case BackToSummary(_) => ["go", "back"]
    case CloseSummary(_) => ["close"]
  }

  /** The literal start of an action's callback data, up to the first id. */
  function Tag(a: Action): string {
    match a
    case OpenHistory(_, _) => "history_"
    case OpenPerAdmin(_, _) => "per_admin_"
    case BackToHistory(_, _) => "history_back_"
    case BackToBalance(_, _) => "bal_back_"
    case CloseBalance(_, _) => "close_bal_"
    case OpenDataList(_) => "data_list_"
    case OpenAdminList(_) => "admin_list_"
    case BackToSummary(_) => "go_back_"
    case CloseSummary(_) => "close_"
  }

  /** The ids that follow the tag: account and owner, or the owner alone. */
  function IdFields(a: Action): seq<string> {
    if a.OnBalanceSide() then [IntToString(a.target), IntToString(a.owner)] else [IntToString(a.owner)]
  }

  /** The callback data of the button for `a`, as the bot formats it
      (`f"per_admin_{target}_{owner}"` and so on): the tag, then the ids
      joined by "_". */
  function Encode(a: Action): string {
    var w := TagWords(a);
    var ids := Join(IdFields(a), '_');
    if |w| == 1 then w[0] + ['_'] + ids else w[0] + ['_'] + (w[1] + ['_'] + ids)
  }

  /** The tag is its words, each followed by "_". */
  lemma TagIsWords(a: Action)
    ensures var w := TagWords(a);
      Tag(a) == if |w| == 1 then w[0] + ['_'] else w[0] + ['_'] + w[1] + ['_']
  {
    match a
    case OpenHistory(_, _) => assert "history_" == "history" + ['_'];
    case OpenPerAdmin(_, _) => assert "per_admin_" == "per" + ['_'] + "admin" + ['_'];
    case BackToHistory(_, _) => assert "history_back_" == "history" + ['_'] + "back" + ['_'];
    case BackToBalance(_, _) => assert "bal_back_" == "bal" + ['_'] + "back" + ['_'];
    case CloseBalance(_, _) => assert "close_bal_" == "close" + ['_'] + "bal" + ['_'];
    case OpenDataList(_) => assert "data_list_" == "data" + ['_'] + "list" + ['_'];
    case OpenAdminList(_) => assert "admin_list_" == "admin" + ['_'] + "list" + ['_'];
    case BackToSummary(_) => assert "go_back_" == "go" + ['_'] + "back" + ['_'];
    case CloseSummary(_) => assert "close_" == "close" + ['_'];
  }

  /** The data starts with the tag. */
  lemma EncodeIsTagged(a: Action)
    ensures Encode(a) == Tag(a) + Join(IdFields(a), '_')
  {
    TagIsWords(a);
    var w := TagWords(a);
    var ids := Join(IdFields(a), '_');
    if |w| == 2 {
      TwoWords(w[0], w[1], ids);
    }
  }

  lemma TwoWords(x: string, y: string, ids: string)
    ensures x + ['_'] + (y + ['_'] + ids) == x + ['_'] + y + ['_'] + ids
  {
  }

  /** No id holds a "_". */
  lemma IdsHoldNoSeparator(a: Action)
    ensures forall i :: 0 <= i < |IdFields(a)| ==> '_' !in IdFields(a)[i]
  {
    var ids := IdFields(a);
    forall i | 0 <= i < |ids| ensures '_' !in ids[i] {
      var s := ids[i];
      assert forall k :: 0 <= k < |s| ==> IsDigit(s[k]) || s[k] == '-';
    }
  }

  /** Splitting a tag of two words, each followed by "_". */
  lemma SplitAfterTwoWords(x: string, y: string, rest: string)
    requires '_' !in x && '_' !in y
    ensures Split(x + ['_'] + (y + ['_'] + rest), '_') == [x, y] + Split(rest, '_')
  {
    SplitAfterPiece(y, '_', rest);
    SplitAfterPiece(x, '_', y + ['_'] + rest);
  }

  /** `split("_")` on a button's data gives the tag's words, then the ids. */
  lemma SplitEncode(a: Action)
    ensures Split(Encode(a), '_') == TagWords(a) + IdFields(a)
  {
    IdsHoldNoSeparator(a);
    SplitJoin(IdFields(a), '_');
    var w := TagWords(a);
    if |w| == 1 {
      SplitAfterPiece(w[0], '_', Join(IdFields(a), '_'));
    } else {
      SplitAfterTwoWords(w[0], w[1], Join(IdFields(a), '_'));
    }
  }

  /** The joined ids start with a digit or a minus sign. */
  lemma {:induction false} JoinHead(parts: seq<string>, sep: char)
    requires |parts| >= 1 && |parts[0]| > 0
    ensures |Join(parts, sep)| > 0 && Join(parts, sep)[0] == parts[0][0]
  {
  }

  /** A prefix made of letters and "_" cannot reach into the ids: the data
      starts with it exactly when the tag does. */
  lemma TaggedStartsWith(tag: string, rest: string, p: string)
    requires |rest| > 0 && (IsDigit(rest[0]) || rest[0] == '-')
    requires forall i :: 0 <= i < |p| ==> p[i] == '_' || 'a' <= p[i] <= 'z'
    ensures StartsWith(tag + rest, p) <==> StartsWith(tag, p)
  {
    if |p| <= |tag| {
      assert (tag + rest)[..|p|] == tag[..|p|];
    } else {
      assert (tag + rest)[|tag|] == rest[0];
      assert p[|tag|] == '_' || 'a' <= p[|tag|] <= 'z';
    }
  }

  /** Which of those prefixes each tag starts with. */
  predicate TagMatches(tag: string, a: Action) {
    (StartsWith(tag, "history_") <==> a.OpenHistory? || a.BackToHistory?)
    && (StartsWith(tag, "history_back_") <==> a.BackToHistory?)
    && (StartsWith(tag, "per_admin_") <==> a.OpenPerAdmin?)
    && (StartsWith(tag, "bal_back_") <==> a.BackToBalance?)
    && (StartsWith(tag, "close_bal_") <==> a.CloseBalance?)
    && (StartsWith(tag, "data_list_") <==> a.OpenDataList?)
    && (StartsWith(tag, "admin_list_") <==> a.OpenAdminList?)
    && (StartsWith(tag, "go_back_") <==> a.BackToSummary?)
    && (StartsWith(tag, "close_") <==> a.CloseSummary? || a.CloseBalance?)
  }

  lemma TagPrefixes(a: Action)
    ensures TagMatches(Tag(a), a)
  {
    if a.OnBalanceSide() {
      BalanceTagPrefixes(a);
    } else {
      SummaryTagPrefixes(a);
    }
  }

  lemma BalanceTagPrefixes(a: Action)
    requires a.OnBalanceSide()
    ensures TagMatches(Tag(a), a)
  {
    match a
    case OpenHistory(_, _) => assert Tag(a)[0] == 'h';
    case OpenPerAdmin(_, _) => assert Tag(a)[0] == 'p';
    case BackToHistory(_, _) => assert Tag(a)[0] == 'h';
    case BackToBalance(_, _) => assert Tag(a)[0] == 'b';
    case CloseBalance(_, _) => assert Tag(a)[0] == 'c';
  }

  lemma SummaryTagPrefixes(a: Action)
    requires !a.OnBalanceSide()
    ensures TagMatches(Tag(a), a)
  {
    match a
    case OpenDataList(_) => assert Tag(a)[0] == 'd';
    case OpenAdminList(_) => assert Tag(a)[0] == 'a';
    case BackToSummary(_) => assert Tag(a)[0] == 'g';
    case CloseSummary(_) => assert Tag(a)[0] == 'c';
  }

  /** Which of the prefixes `button_callback` tests a button's data starts
      with: "history_" is shared by the history view and its "back" button,
      "close_" by both close buttons; every other prefix is its action's own. */
  lemma PrefixTable(a: Action)
    ensures TagMatches(Encode(a), a)
  {
    var ids := IdFields(a);
    JoinHead(ids, '_');
    EncodeIsTagged(a);
    TagPrefixes(a);
    TaggedMatches(Tag(a), Join(ids, '_'), a);
  }

  /** Appending the ids keeps which prefixes the tag starts with. */
  lemma TaggedMatches(tag: string, rest: string, a: Action)
    requires |rest| > 0 && (IsDigit(rest[0]) || rest[0] == '-')
    requires TagMatches(tag, a)
    ensures TagMatches(tag + rest, a)
  {
    TaggedStartsWith(tag, rest, "history_");
    TaggedStartsWith(tag, rest, "history_back_");
    TaggedStartsWith(tag, rest, "per_admin_");
    TaggedStartsWith(tag, rest, "bal_back_");
    TaggedStartsWith(tag, rest, "close_bal_");
    TaggedStartsWith(tag, rest, "data_list_");
    TaggedStartsWith(tag, rest, "admin_list_");
    TaggedStartsWith(tag, rest, "go_back_");
    TaggedStartsWith(tag, rest, "close_");
  }

  /** The callback data of every button reads back as its own action when
      its owner clicks it, and is refused for anyone else. */
  lemma RouteEncode(a: Action, clicker: int)
    ensures Route(Encode(a), clicker) == if clicker == a.owner then Run(a) else Unauthorized
  {
    SplitEncode(a);
    PrefixTable(a);
    ParseIntToString(a.owner);
    if a.OnBalanceSide() {
      ParseIntToString(a.target);
      RouteBalanceButton(a, clicker);
    } else {
      RouteSummaryButton(a, clicker);
    }
  }

  lemma RouteBalanceButton(a: Action, clicker: int)
    requires a.OnBalanceSide()
    requires Split(Encode(a), '_') == TagWords(a) + IdFields(a)
    requires TagMatches(Encode(a), a)
    requires ParseInt(IntToString(a.owner)) == Some(a.owner)
    requires ParseInt(IntToString(a.target)) == Some(a.target)
    ensures Route(Encode(a), clicker) == if clicker == a.owner then Run(a) else Unauthorized
  {
    var data := Encode(a);
    var parts := Split(data, '_');
    var ids := IdsAt(parts, |TagWords(a)|);
    assert ids == Some((a.target, a.owner));
    assert LastId(data) == Some(a.owner);
    assert BalancePrefixed(data) && |parts| >= 3;
    match a
    case OpenHistory(_, _) =>
    case OpenPerAdmin(_, _) =>
    case BackToHistory(_, _) =>
    case BackToBalance(_, _) =>
    case CloseBalance(_, _) =>
  }

  lemma RouteSummaryButton(a: Action, clicker: int)
    requires !a.OnBalanceSide()
    requires Split(Encode(a), '_') == TagWords(a) + IdFields(a)
    requires TagMatches(Encode(a), a)
    requires ParseInt(IntToString(a.owner)) == Some(a.owner)
    ensures Route(Encode(a), clicker) == if clicker == a.owner then Run(a) else Unauthorized
  {
  }

  /** Whatever the data, nothing runs unless its last field reads as the
      clicker's id: a balance-side button with fewer than three fields
      skips the owner check but then fails to read its ids. */
  lemma RunNeedsOwner(data: string, clicker: int)
    ensures Route(data, clicker).Run? ==> LastId(data) == Some(clicker)
  {
    var parts := Split(data, '_');
    if BalancePrefixed(data) && |parts| < 3 {
      assert !Dispatch(data).Run?;
    }
  }

  /** Data without any of the nine prefixes is ignored for every clicker. */
  lemma UnknownPrefixIgnored(data: string, clicker: int)
    requires !BalancePrefixed(data) && !SummaryPrefixed(data)
    ensures Route(data, clicker) == Unmatched
  {
  }

  /** An action only touches keys of the message it was clicked on, of
      the owner it names and, on the balance side, of the account it
      shows; what it registers is never among what it drops, and a close
      drops every view of its side. */
  lemma ActionScope(a: Action, msg: int)
    ensures forall k :: k in Dropped(a, msg) ==>
      (k.owner == a.owner && k.msg == msg
       && (k.BalKey? <==> a.OnBalanceSide()) && (k.BalKey? ==> k.target == a.target))
    ensures Registers(a, msg).Some? ==> var k := Registers(a, msg).value;
      k.owner == a.owner && k.msg == msg && k !in Dropped(a, msg)
      && (k.BalKey? <==> a.OnBalanceSide()) && (k.BalKey? ==> k.target == a.target)
    ensures Registers(a, msg).None? <==> a.CloseBalance? || a.CloseSummary?
    ensures a.CloseBalance? ==> forall kind :: BalKey(kind, a.target, a.owner, msg) in Dropped(a, msg)
    ensures a.CloseSummary? ==> forall kind :: InfoKey(kind, a.owner, msg) in Dropped(a, msg)
  {
    if a.CloseBalance? {
      forall kind ensures BalKey(kind, a.target, a.owner, msg) in Dropped(a, msg) {
        if kind.BalanceView? {} else if kind.HistoryView? {} else {}
      }
    }
    if a.CloseSummary? {
      forall kind ensures InfoKey(kind, a.owner, msg) in Dropped(a, msg) {
        if kind.SummaryView? {} else if kind.DataListView? {} else {}
      }
    }
  }
}
