/**
 * The agent wallet page: a paged transaction history, the count of
 * winnings still to be paid to users, and the two dialogs that settle a
 * winning and request a deposit.
 */
module AgentWallet {
  import opened Common

  const PageSize: nat := 20

  /** A history row; the amount arrives as text. */
  datatype Tx = Tx(txType: string, status: Option<string>, amount: string)

  /** `getWalletHistory`: the items and the total may be missing. */
  datatype HistoryPage = HistoryPage(items: Option<seq<Tx>>, total: RawNumber)

  datatype Fetch<T> = Failed | Loaded(value: T)

  /** `Math.ceil(total / 20)`. */
  function TotalPages(total: int): (r: int)
    ensures (r - 1) * PageSize < total <= r * PageSize
    ensures total <= 0 ==> r <= 0
  {
    (total + PageSize - 1) / PageSize
  }

  /** The pager is drawn only when there is more than one page. */
  predicate PagerShown(total: int) { TotalPages(total) > 1 }

  /** The pager is shown exactly when there are more rows than fit on one page. */
  lemma PagerShownIff(total: int)
    ensures PagerShown(total) <==> total > PageSize
  {
  }

  predicate PrevEnabled(page: int, total: int) { PagerShown(total) && page != 1 }
  predicate NextEnabled(page: int, total: int) { PagerShown(total) && page != TotalPages(total) }

  /** The page after a click on Previous; a disabled or hidden button does nothing. */
  function AfterPrev(page: int, total: int): int
  {
    if PrevEnabled(page, total) then page - 1 else page
  }

  function AfterNext(page: int, total: int): int
  {
    if NextEnabled(page, total) then page + 1 else page
  }

  /** Starting from a page in range, the pager never leaves the range. */
  lemma PagerStaysInRange(page: int, total: int)
    requires PagerShown(total) && 1 <= page <= TotalPages(total)
    ensures 1 <= AfterPrev(page, total) <= TotalPages(total)
    ensures 1 <= AfterNext(page, total) <= TotalPages(total)
    ensures page == 1 ==> AfterPrev(page, total) == 1
    ensures page == TotalPages(total) ==> AfterNext(page, total) == page
    ensures 1 < page ==> AfterPrev(page, total) == page - 1
    ensures page < TotalPages(total) ==> AfterNext(page, total) == page + 1
  {
  }

  /** A winning credited to the agent that is not yet settled to the user. */
  predicate IsUnsettledWin(t: Tx)
  {
    t.txType == "WIN_CREDIT" && t.status != Some("SETTLED")
  }

  function UnsettledWin(): Tx -> bool { (t: Tx) => IsUnsettledWin(t) }

  /** `pendingWinnings`. */
  function PendingWinnings(history: seq<Tx>): nat
  {
    |Filter(history, UnsettledWin())|
  }

  /**
   * The count is zero exactly when no row carries a Settle button, and it
   * never exceeds the rows of the page.
   */
  lemma PendingWinningsShape(history: seq<Tx>)
    ensures PendingWinnings(history) <= |history|
    ensures PendingWinnings(history) == 0 <==> forall k :: 0 <= k < |history| ==> !IsUnsettledWin(history[k])
    ensures forall t :: t in Filter(history, UnsettledWin()) <==> t in history && IsUnsettledWin(t)
  {
    FilterMembers(history, UnsettledWin());
    FilterEmpty(history, UnsettledWin());
  }

  /** The badge above the table: nothing when the count is zero, a plural for more than one. */
  function PendingBadge(history: seq<Tx>): (r: Option<string>)
    ensures r.None? <==> PendingWinnings(history) == 0
    ensures PendingWinnings(history) == 1 ==> r == Some("1 Pending Winning")
  {
    var n := PendingWinnings(history);
    assert NatToString(1) + " Pending Winning" + "" == "1 Pending Winning";
    if n > 0 then Some(NatToString(n) + " Pending Winning" + (if n > 1 then "s" else "")) else None
  }

  /** The action cell of a row: a Settle button, or a badge of its status ("Completed" when it has none). */
  datatype ActionCell = SettleButton | StatusBadge(text: string)

  function ActionFor(t: Tx): (c: ActionCell)
    ensures c == SettleButton <==> IsUnsettledWin(t)
    ensures c.StatusBadge? && (t.status.None? || t.status == Some("")) ==> c.text == "Completed"
  {
    if IsUnsettledWin(t) then SettleButton
    else StatusBadge(if t.status.Some? && t.status.value != "" then t.status.value else "Completed")
  }

  /** `parseFloat(x) || 0` on whole amounts: the leading number of the text, 0 when there is none. */
  function AmountOf(text: string): (r: int)
    ensures ParseInt(text).None? ==> r == 0
    ensures ParseInt(text).Some? ==> r == ParseInt(text).value
  {
    var p := ParseInt(text);
    if p.Some? then p.value else 0
  }

  /** A row amount written in plain digits prefills the dialog with its decimal value. */
  lemma AmountOfDigits(text: string)
    requires IsDigits(text)
    ensures AmountOf(text) == DigitsValue(text) as int
  {
    ParseDigits(text);
  }

  /** The settle-winning dialog. */
  datatype WinForm = WinForm(amount: int, txId: string, proof: string, note: string, selected: Option<Tx>)

  const EmptyWinForm := WinForm(0, "", "", "", None)

  /** The deposit dialog; the amount is kept as typed. */
  datatype DepositForm = DepositForm(amount: string, transId: string, note: string, fileUrl: string)

  const EmptyDepositForm := DepositForm("", "", "", "")

  datatype WinPayload = WinPayload(amount: int, transId: string, proofUrl: string, note: string)

  /** The amount is `Number(text)`; `None` stands for NaN. */
  datatype DepositPayload = DepositPayload(amount: Option<int>, transId: string, proofUrl: string, note: string)

  /** `handleWinSubmit`'s guard: an amount of 0 or a blank transaction id is refused. */
  predicate WinSubmittable(f: WinForm) { f.amount != 0 && !Blank(f.txId) }

  /** `handleDepositSubmit`'s guard: a blank amount or a blank transaction id is refused. */
  predicate DepositSubmittable(f: DepositForm) { !Blank(f.amount) && !Blank(f.transId) }

  function WinPayloadOf(f: WinForm): (p: WinPayload)
    ensures p.amount == f.amount && p.transId == f.txId && p.proofUrl == f.proof && p.note == f.note
  {
    WinPayload(f.amount, f.txId, f.proof, f.note)
  }

  function DepositPayloadOf(f: DepositForm): (p: DepositPayload)
    ensures p.amount == ToNumber(f.amount) && p.transId == f.transId && p.proofUrl == f.fileUrl && p.note == f.note
  {
    DepositPayload(ToNumber(f.amount), f.transId, f.fileUrl, f.note)
  }

  /** An amount typed as plain digits is sent as that number. */
  lemma DepositAmountDigits(f: DepositForm)
    requires IsDigits(f.amount)
    ensures DepositPayloadOf(f).amount == Some(DigitsValue(f.amount) as int)
  {
    ParseDigits(f.amount);
  }

  /** A deposit amount that passes the guard is never read as Number("") = 0 by accident: it has a visible character. */
  lemma DepositGuardNonBlank(f: DepositForm)
    requires DepositSubmittable(f)
    ensures exists i :: 0 <= i < |f.amount| && !IsWs(f.amount[i])
  {
    BlankIffAllWs(f.amount);
  }

  class WalletPage {
    var balance: Option<int>
    var page: int
    var total: int
    var history: seq<Tx>
    var loading: bool
    var depositOpen: bool
    var deposit: DepositForm
    var winOpen: bool
    var win: WinForm

    constructor()
      ensures balance == None && page == 1 && total == 0 && history == [] && loading
      ensures !depositOpen && deposit == EmptyDepositForm && !winOpen && win == EmptyWinForm
    {
      balance := None;
      page := 1;
      total := 0;
      history := [];
      loading := true;
      depositOpen := false;
      deposit := EmptyDepositForm;
      winOpen := false;
      win := EmptyWinForm;
    }

    /** `loadWallet`: missing items become no rows and a missing total becomes 0; a failure keeps the old data. */
    method LoadWallet(res: Fetch<(Option<int>, HistoryPage)>)
      modifies this
      ensures !loading
      ensures res.Loaded? ==> balance == res.value.0 && total == NumberOrZero(res.value.1.total)
      ensures res.Loaded? ==> history == (if res.value.1.items.Some? then res.value.1.items.value else [])
      ensures res.Failed? ==> balance == old(balance) && total == old(total) && history == old(history)
      ensures page == old(page) && depositOpen == old(depositOpen) && deposit == old(deposit)
      ensures winOpen == old(winOpen) && win == old(win)
    {
      loading := true;
      if res.Loaded? {
        var (bal, hist) := res.value;
        balance := bal;
        history := if hist.items.Some? then hist.items.value else [];
        total := NumberOrZero(hist.total);
      }
      loading := false;
    }

    method ClickPrev()
      modifies this
      ensures page == AfterPrev(old(page), total)
      ensures total == old(total) && history == old(history) && balance == old(balance) && loading == old(loading)
      ensures depositOpen == old(depositOpen) && deposit == old(deposit) && winOpen == old(winOpen) && win == old(win)
    {
      if PrevEnabled(page, total) {
        page := page - 1;
      }
    }

    method ClickNext()
      modifies this
      ensures page == AfterNext(old(page), total)
      ensures total == old(total) && history == old(history) && balance == old(balance) && loading == old(loading)
      ensures depositOpen == old(depositOpen) && deposit == old(deposit) && winOpen == old(winOpen) && win == old(win)
    {
      if NextEnabled(page, total) {
        page := page + 1;
      }
    }

    /** The Settle button of a row: the row is selected, its amount prefilled and the dialog opened. */
    method ClickSettleWinning(t: Tx)
      modifies this
      ensures IsUnsettledWin(t) ==> winOpen && win == old(win).(selected := Some(t), amount := AmountOf(t.amount))
      ensures !IsUnsettledWin(t) ==> winOpen == old(winOpen) && win == old(win)
      ensures page == old(page) && total == old(total) && history == old(history) && balance == old(balance)
      ensures loading == old(loading) && depositOpen == old(depositOpen) && deposit == old(deposit)
    {
      if ActionFor(t) == SettleButton {
        win := win.(selected := Some(t), amount := AmountOf(t.amount));
        winOpen := true;
      }
    }

    /** The amount input of the settle dialog: `Number(value) || 0`. */
    method SetWinAmount(text: string)
      modifies this
      ensures win == old(win).(amount := NumberOrZero(Text(text)))
      ensures winOpen == old(winOpen) && depositOpen == old(depositOpen) && deposit == old(deposit)
      ensures page == old(page) && total == old(total) && history == old(history) && balance == old(balance) && loading == old(loading)
    {
      win := win.(amount := NumberOrZero(Text(text)));
    }

    /**
     * `handleWinSubmit`: a refused form sends nothing and changes nothing;
     * after an accepted settlement the dialog closes, every field is reset
     * and the wallet is loaded again.
     */
    method HandleWinSubmit(accepted: bool, reloaded: Fetch<(Option<int>, HistoryPage)>) returns (sent: Option<WinPayload>)
      modifies this
      ensures sent.Some? <==> WinSubmittable(old(win))
      ensures sent.Some? ==> sent.value == WinPayloadOf(old(win))
      ensures sent.Some? && accepted ==> !winOpen && win == EmptyWinForm && !loading
      ensures !(sent.Some? && accepted) ==> (winOpen == old(winOpen) && win == old(win)
        && history == old(history) && total == old(total) && balance == old(balance) && loading == old(loading))
      ensures page == old(page) && depositOpen == old(depositOpen) && deposit == old(deposit)
    {
      if !WinSubmittable(win) {
        return None;
      }
      sent := Some(WinPayloadOf(win));
      if accepted {
        winOpen := false;
        win := EmptyWinForm;
        LoadWallet(reloaded);
      }
    }

    /** `handleDepositSubmit`, with the same shape as the settle dialog. */
    method HandleDepositSubmit(accepted: bool, reloaded: Fetch<(Option<int>, HistoryPage)>) returns (sent: Option<DepositPayload>)
      modifies this
      ensures sent.Some? <==> DepositSubmittable(old(deposit))
      ensures sent.Some? ==> sent.value == DepositPayloadOf(old(deposit))
      ensures sent.Some? && accepted ==> !depositOpen && deposit == EmptyDepositForm && !loading
      ensures !(sent.Some? && accepted) ==> (depositOpen == old(depositOpen) && deposit == old(deposit)
        && history == old(history) && total == old(total) && balance == old(balance) && loading == old(loading))
      ensures page == old(page) && winOpen == old(winOpen) && win == old(win)
    {
      if !DepositSubmittable(deposit) {
        return None;
      }
      sent := Some(DepositPayloadOf(deposit));
      if accepted {
        depositOpen := false;
        deposit := EmptyDepositForm;
        LoadWallet(reloaded);
      }
    }
  }

  /** A reset dialog refuses to submit until both fields are filled in again. */
  lemma WinResetRefused()
    ensures !WinSubmittable(EmptyWinForm)
  {
  }

  lemma DepositResetRefused()
    ensures !DepositSubmittable(EmptyDepositForm)
  {
    EmptyBlank();
  }

  lemma EmptyBlank()
    ensures Blank("")
  {
    var e: string := "";
    assert TrimStart(e) == e;
    assert TrimEnd(e) == e;
  }
}
