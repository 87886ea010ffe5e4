/** The account_balances view and the reconciliation queries (scripts/reconcile.sql), and the
    arithmetic that ties the journal to the committed transactions. */
module Reports {
  import opened Types
  import opened Sums
  import opened Engine
  import opened EngineInvariant
  import opened EngineTheorems
  import opened Ledger
  import opened LedgerInvariant

  // ---------- ledger.account_balances ----------

  function LineBalance(lines: seq<Line>, account: string): int {
    if lines == [] then 0
    else LineBalance(lines[..|lines| - 1], account)
         + if lines[|lines| - 1].account == account then Signed(lines[|lines| - 1]) else 0
  }

  /** SUM(credits - debits) over the lines of one account. */
  function AccountBalance(journal: seq<Entry>, account: string): int {
    if journal == [] then 0
    else AccountBalance(journal[..|journal| - 1], account) + LineBalance(journal[|journal| - 1].lines, account)
  }

  function LineAccounts(lines: seq<Line>): set<string> {
    set i | 0 <= i < |lines| :: lines[i].account
  }

  function Accounts(journal: seq<Entry>): set<string> {
    if journal == [] then {}
    else Accounts(journal[..|journal| - 1]) + LineAccounts(journal[|journal| - 1].lines)
  }

  // ---------- scripts/reconcile.sql ----------

  predicate IsWalletAccount(account: string) {
    "wallet:" <= account
  }

  /** ledger_side joined on one wallet: COALESCE(l.balance_cents, 0). */
  ghost function LedgerSide(journal: seq<Entry>, w: Uuid): int {
    if a :| a in Accounts(journal) && IsWalletAccount(a) && a[7..] == w.text then AccountBalance(journal, a) else 0
  }

  /** The rows of the first query: wallets whose balance differs from the ledger's. */
  ghost function Differences(ws: map<Uuid, Wallet>, journal: seq<Entry>): set<Uuid> {
    set w | w in ws && ws[w].balance != LedgerSide(journal, w)
  }

  /** The second query: entries that do not balance. */
  ghost function UnbalancedEntries(journal: seq<Entry>): set<nat> {
    set i | 0 <= i < |journal| && !Balanced(journal[i])
  }

  function Side(lines: seq<Line>, direction: Direction): int {
    if lines == [] then 0
    else Side(lines[..|lines| - 1], direction)
         + if lines[|lines| - 1].direction == direction then lines[|lines| - 1].amount else 0
  }

  lemma {:induction false} SumIsDifference(lines: seq<Line>)
    ensures SumLines(lines) == Side(lines, CREDIT) - Side(lines, DEBIT)
  {
    if lines != [] {
      SumIsDifference(lines[..|lines| - 1]);
    }
  }

  /** What the trigger and the second query look for: debits that differ from credits. */
  lemma UnbalancedAre(journal: seq<Entry>, i: nat)
    ensures i in UnbalancedEntries(journal) <==>
      i < |journal| && Side(journal[i].lines, DEBIT) != Side(journal[i].lines, CREDIT)
    ensures i < |journal| ==> (Balanced(journal[i]) <==> Side(journal[i].lines, DEBIT) == Side(journal[i].lines, CREDIT))
  {
    if i < |journal| {
      SumIsDifference(journal[i].lines);
    }
  }

  // ---------- accounts of one transaction ----------

  lemma AccountsDiffer(v: Uuid, w: Uuid)
    ensures AccountOf(v) != EXTERNAL_CASH
    ensures AccountOf(v) == AccountOf(w) ==> v == w
  {
    assert AccountOf(v)[0] == 'w' && EXTERNAL_CASH[0] == 'e';
    assert AccountOf(v)[7..] == v.text && AccountOf(w)[7..] == w.text;
  }

  lemma LinesOfTwo(a: Line, b: Line, account: string)
    ensures LineBalance([a, b], account)
         == (if a.account == account then Signed(a) else 0) + (if b.account == account then Signed(b) else 0)
  {
    assert [a, b][..1] == [a];
    assert LineBalance([a], account) == LineBalance([], account) + if a.account == account then Signed(a) else 0;
  }

  /** An entry moves in each wallet account what its transaction moved in the wallet, and takes
      deposits out of external:cash. */
  lemma EntryMoves(tx: Tx, w: Uuid)
    ensures LineBalance(EntryOf(tx).lines, AccountOf(w)) == Delta(tx, w)
    ensures LineBalance(EntryOf(tx).lines, EXTERNAL_CASH) == if tx.from.None? then -tx.amount else 0
  {
    var lines := LinesOf(tx);
    LinesOfTwo(lines[0], lines[1], AccountOf(w));
    LinesOfTwo(lines[0], lines[1], EXTERNAL_CASH);
    AccountsDiffer(tx.to, w);
    AccountsDiffer(w, w);
    if tx.from.Some? {
      AccountsDiffer(tx.from.value, w);
    }
  }

  // ---------- settled and in-flight transactions ----------

  ghost predicate IsSettled(journal: seq<Entry>, cm: Commit) {
    Recorded(journal, cm.tx.id.text)
  }

  /** The sum of f over the commits whose event is in the journal. */
  ghost function Settled(cs: seq<Commit>, journal: seq<Entry>, f: Tx -> int): int {
    if cs == [] then 0
    else Settled(cs[..|cs| - 1], journal, f)
         + if IsSettled(journal, cs[|cs| - 1]) then f(cs[|cs| - 1].tx) else 0
  }

  /** The sum of the deltas on w of the commits whose event is not yet in the journal. */
  ghost function InFlight(cs: seq<Commit>, journal: seq<Entry>, w: Uuid): int {
    if cs == [] then 0
    else InFlight(cs[..|cs| - 1], journal, w)
         + if IsSettled(journal, cs[|cs| - 1]) then 0 else Delta(cs[|cs| - 1].tx, w)
  }

  lemma {:induction false} SettledPlusInFlight(cs: seq<Commit>, journal: seq<Entry>, w: Uuid)
    ensures Settled(cs, journal, tx => Delta(tx, w)) + InFlight(cs, journal, w) == Net(cs, w)
  {
    if cs != [] {
      SettledPlusInFlight(cs[..|cs| - 1], journal, w);
    }
  }

  lemma {:induction false} SettledByNone(cs: seq<Commit>, f: Tx -> int)
    ensures Settled(cs, [], f) == 0
  {
    if cs != [] {
      SettledByNone(cs[..|cs| - 1], f);
    }
  }

  ghost predicate IdsDistinct(cs: seq<Commit>) {
    forall i, j :: 0 <= i < j < |cs| ==> cs[i].tx.id.text != cs[j].tx.id.text
  }

  lemma RecordedSnoc(journal: seq<Entry>, entry: Entry, eventId: string)
    ensures Recorded(journal + [entry], eventId) <==> Recorded(journal, eventId) || eventId == entry.eventId
  {
    if Recorded(journal, eventId) {
      var i :| 0 <= i < |journal| && journal[i].eventId == eventId;
      assert (journal + [entry])[i].eventId == eventId;
    }
    if eventId == entry.eventId {
      assert (journal + [entry])[|journal|].eventId == eventId;
    }
  }

  /** Journalling commit i, once, adds exactly its own summand. */
  lemma {:induction false} SettledSnoc(cs: seq<Commit>, i: nat, n: nat, journal: seq<Entry>, entry: Entry, f: Tx -> int)
    requires i < |cs| && n <= |cs| && IdsDistinct(cs)
    requires entry.eventId == cs[i].tx.id.text && !Recorded(journal, entry.eventId)
    ensures Settled(cs[..n], journal + [entry], f) == Settled(cs[..n], journal, f) + if i < n then f(cs[i].tx) else 0
    decreases n
  {
    if n > 0 {
      SettledSnoc(cs, i, n - 1, journal, entry, f);
      assert cs[..n][..n - 1] == cs[..n - 1];
      RecordedSnoc(journal, entry, cs[n - 1].tx.id.text);
    }
  }

  /** The entry of tx moves f(tx) in the account. */
  ghost predicate Moves(tx: Tx, account: string, f: Tx -> int) {
    LineBalance(EntryOf(tx).lines, account) == f(tx)
  }

  lemma JournalPrefix(cs: seq<Commit>, journal: seq<Entry>)
    requires JournalOk(cs, journal) && journal != []
    ensures JournalOk(cs, journal[..|journal| - 1])
    ensures !Recorded(journal[..|journal| - 1], journal[|journal| - 1].eventId)
    ensures EntryIs(cs, journal[|journal| - 1])
  {
  }

  /** The entry of every transaction moves f(tx) in the account. */
  ghost predicate AllMove(cs: seq<Commit>, account: string, f: Tx -> int) {
    forall i :: 0 <= i < |cs| ==> Moves(cs[i].tx, account, f)
  }

  /** An account's balance is the sum over the settled transactions, each counted once. */
  lemma {:induction false} JournalIsSettled(cs: seq<Commit>, journal: seq<Entry>, account: string, f: Tx -> int)
    requires JournalOk(cs, journal) && IdsDistinct(cs)
    requires AllMove(cs, account, f)
    ensures AccountBalance(journal, account) == Settled(cs, journal, f)
    decreases |journal|
  {
    if journal == [] {
      SettledByNone(cs, f);
    } else {
      JournalPrefix(cs, journal);
      JournalIsSettled(cs, journal[..|journal| - 1], account, f);
      EntryIsSettled(cs, journal, account, f);
    }
  }

  lemma EntryIsSettled(cs: seq<Commit>, journal: seq<Entry>, account: string, f: Tx -> int)
    requires journal != [] && IdsDistinct(cs) && AllMove(cs, account, f)
    requires var rest, last := journal[..|journal| - 1], journal[|journal| - 1];
             && EntryIs(cs, last) && !Recorded(rest, last.eventId)
             && AccountBalance(rest, account) == Settled(cs, rest, f)
    ensures AccountBalance(journal, account) == Settled(cs, journal, f)
  {
    var rest, last := journal[..|journal| - 1], journal[|journal| - 1];
    var i := CommitOfEntry(cs, last, account, f);
    LastEntrySettles(cs, i, rest, last, f);
    BalanceSnoc(rest, last, account);
    assert journal == rest + [last];
  }

  lemma BalanceSnoc(rest: seq<Entry>, last: Entry, account: string)
    ensures AccountBalance(rest + [last], account) == AccountBalance(rest, account) + LineBalance(last.lines, account)
  {
    assert (rest + [last])[..|rest|] == rest;
  }

  lemma CommitOfEntry(cs: seq<Commit>, entry: Entry, account: string, f: Tx -> int) returns (i: nat)
    requires EntryIs(cs, entry) && AllMove(cs, account, f)
    ensures i < |cs| && entry.eventId == cs[i].tx.id.text && LineBalance(entry.lines, account) == f(cs[i].tx)
  {
    i :| 0 <= i < |cs| && entry == EntryOf(cs[i].tx);
    assert Moves(cs[i].tx, account, f);
  }

  lemma LastEntrySettles(cs: seq<Commit>, i: nat, rest: seq<Entry>, last: Entry, f: Tx -> int)
    requires i < |cs| && IdsDistinct(cs) && last.eventId == cs[i].tx.id.text && !Recorded(rest, last.eventId)
    ensures Settled(cs, rest + [last], f) == Settled(cs, rest, f) + f(cs[i].tx)
  {
    assert cs[..|cs|] == cs;
    SettledSnoc(cs, i, |cs|, rest, last, f);
  }

  // ---------- the two sides ----------

  ghost function CashTaken(tx: Tx): int {
    if tx.from.None? then -tx.amount else 0
  }

  lemma LedgerBalanceIsSettled(cs: seq<Commit>, journal: seq<Entry>, w: Uuid)
    requires JournalOk(cs, journal) && IdsDistinct(cs)
    ensures AccountBalance(journal, AccountOf(w)) == Settled(cs, journal, tx => Delta(tx, w))
    ensures AccountBalance(journal, EXTERNAL_CASH) == Settled(cs, journal, CashTaken)
  {
    var f := (tx: Tx) => Delta(tx, w);
    forall i | 0 <= i < |cs| ensures Moves(cs[i].tx, AccountOf(w), f) { EntryMoves(cs[i].tx, w); }
    JournalIsSettled(cs, journal, AccountOf(w), f);
    forall i | 0 <= i < |cs| ensures Moves(cs[i].tx, EXTERNAL_CASH, CashTaken) { EntryMoves(cs[i].tx, w); }
    JournalIsSettled(cs, journal, EXTERNAL_CASH, CashTaken);
  }

  lemma {:induction false} AllSettled(cs: seq<Commit>, journal: seq<Entry>, w: Uuid)
    requires forall i :: 0 <= i < |cs| ==> IsSettled(journal, cs[i])
    ensures InFlight(cs, journal, w) == 0
    ensures Settled(cs, journal, CashTaken) == -Deposited(cs)
  {
    if cs != [] {
      AllSettled(cs[..|cs| - 1], journal, w);
    }
  }

  // ---------- the view as a whole ----------

  lemma {:induction false} NoAccountNoBalance(journal: seq<Entry>, account: string)
    requires account !in Accounts(journal)
    ensures AccountBalance(journal, account) == 0
    decreases |journal|
  {
    if journal != [] {
      NoAccountNoBalance(journal[..|journal| - 1], account);
      NoLineNoBalance(journal[|journal| - 1].lines, account);
    }
  }

  lemma {:induction false} NoLineNoBalance(lines: seq<Line>, account: string)
    requires account !in LineAccounts(lines)
    ensures LineBalance(lines, account) == 0
    decreases |lines|
  {
    if lines != [] {
      var rest := lines[..|lines| - 1];
      assert forall i :: 0 <= i < |rest| ==> rest[i].account in LineAccounts(lines);
      assert lines[|lines| - 1].account in LineAccounts(lines);
      NoLineNoBalance(rest, account);
    }
  }

  /** The LEFT JOIN finds the wallet's own account, or no lines at all. */
  lemma LedgerSideIs(journal: seq<Entry>, w: Uuid)
    ensures LedgerSide(journal, w) == AccountBalance(journal, AccountOf(w))
  {
    assert IsWalletAccount(AccountOf(w)) && AccountOf(w)[7..] == w.text;
    forall a: string | IsWalletAccount(a) && a[7..] == w.text ensures a == AccountOf(w) {
      assert a == a[..7] + a[7..];
    }
    if AccountOf(w) !in Accounts(journal) {
      NoAccountNoBalance(journal, AccountOf(w));
    }
  }

  lemma {:induction false} LineBalancesSum(accounts: set<string>, lines: seq<Line>)
    requires LineAccounts(lines) <= accounts
    ensures SumOf(accounts, a => LineBalance(lines, a)) == SumLines(lines)
    decreases |lines|
  {
    if lines == [] {
      SumZero(accounts, a => LineBalance(lines, a));
    } else {
      var rest, last := lines[..|lines| - 1], lines[|lines| - 1];
      assert forall i :: 0 <= i < |rest| ==> rest[i].account in LineAccounts(lines);
      assert last.account in LineAccounts(lines);
      LineBalancesSum(accounts, rest);
      var g := a => if last.account == a then Signed(last) else 0;
      SumSingle(accounts, g, last.account);
      SumPlus(accounts, a => LineBalance(rest, a), g, a => LineBalance(lines, a));
    }
  }

  lemma {:induction false} AccountBalancesSum(accounts: set<string>, journal: seq<Entry>)
    requires Accounts(journal) <= accounts
    requires forall i :: 0 <= i < |journal| ==> Balanced(journal[i])
    ensures SumOf(accounts, a => AccountBalance(journal, a)) == 0
    decreases |journal|
  {
    if journal == [] {
      SumZero(accounts, a => AccountBalance(journal, a));
    } else {
      var rest, last := journal[..|journal| - 1], journal[|journal| - 1];
      AccountBalancesSum(accounts, rest);
      LineBalancesSum(accounts, last.lines);
      SumPlus(accounts, a => AccountBalance(rest, a), a => LineBalance(last.lines, a), a => AccountBalance(journal, a));
    }
  }
}
