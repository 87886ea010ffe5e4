/** The values the wallet, the relay, Kafka and the ledger exchange. */
module Types {

  const INT64_MAX := 0x7fff_ffff_ffff_ffff
  const INT32_MAX := 0x7fff_ffff

  datatype Option<+T> = None | Some(value: T)

  /** A UUID in its canonical lower-case text form, as parseUUID and `id::text` produce it. */
  datatype Uuid = Uuid(text: string)

  predicate IsHex(c: char) {
    '0' <= c <= '9' || 'a' <= c <= 'f'
  }

  predicate Canonical(u: Uuid) {
    && |u.text| == 36
    && forall i :: 0 <= i < 36 ==>
         if i == 8 || i == 13 || i == 18 || i == 23 then u.text[i] == '-' else IsHex(u.text[i])
  }

  // ---------- Go's string order, used to lock wallets in id order ----------

  predicate Less(a: string, b: string) {
    |b| > 0 && (|a| == 0 || a[0] < b[0] || (a[0] == b[0] && Less(a[1..], b[1..])))
  }

  lemma {:induction false} LessIsIrreflexive(a: string)
    ensures !Less(a, a)
  {
    if |a| > 0 {
      LessIsIrreflexive(a[1..]);
    }
  }

  lemma {:induction false} LessIsTransitive(a: string, b: string, c: string)
    requires Less(a, b) && Less(b, c)
    ensures Less(a, c)
  {
    if |a| > 0 && a[0] == b[0] && b[0] == c[0] {
      LessIsTransitive(a[1..], b[1..], c[1..]);
    }
  }

  lemma {:induction false} LessIsTotal(a: string, b: string)
    ensures a == b || Less(a, b) || Less(b, a)
  {
    if |a| > 0 && |b| > 0 && a[0] == b[0] {
      LessIsTotal(a[1..], b[1..]);
      if a[1..] == b[1..] {
        assert a == [a[0]] + a[1..];
        assert b == [b[0]] + b[1..];
      }
    }
  }

  // ---------- wallet.wallets ----------

  datatype Wallet = Wallet(id: Uuid, user: Uuid, balance: int, currency: string, version: int)

  // ---------- requests and wallet.transactions ----------

  datatype Request =
    | DepositReq(user: Uuid, amount: int, key: string)
    | TransferReq(user: Uuid, to: Uuid, amount: int, key: string)

  /** What server.go lets through: validateMoney and parseUUID. */
  predicate ValidRequest(req: Request) {
    && 0 < req.amount <= INT64_MAX
    && 1 <= |req.key| <= 200
    && Canonical(req.user)
    && (req.TransferReq? ==> Canonical(req.to))
  }

  datatype Kind = DEPOSIT | TRANSFER

  /** A row of wallet.transactions. `from` is None for deposits. */
  datatype Tx = Tx(id: Uuid, user: Uuid, kind: Kind, from: Option<Uuid>, to: Uuid,
                   amount: int, key: string, createdAt: string)

  function Delta(tx: Tx, w: Uuid): int {
    (if tx.to == w then tx.amount else 0) - (if tx.from == Some(w) then tx.amount else 0)
  }

  predicate Touches(tx: Tx, w: Uuid) {
    tx.to == w || tx.from == Some(w)
  }

  predicate ShareWallet(a: Tx, b: Tx) {
    Touches(a, b.to) || (b.from.Some? && Touches(a, b.from.value))
  }

  /** The wallet of the user who started the transaction. */
  function OwnOf(tx: Tx): Uuid {
    if tx.from.Some? then tx.from.value else tx.to
  }

  /** The constraints of wallet.transactions that concern one row alone. */
  predicate TxShape(tx: Tx) {
    && Canonical(tx.id) && Canonical(tx.to)
    && 0 < tx.amount <= INT64_MAX
    && (tx.kind == TRANSFER <==> tx.from.Some?)
    && (tx.from.Some? ==> tx.from.value != tx.to && Canonical(tx.from.value))
  }

  /** A transaction that answers a request: same user, key, kind, amount and recipient. */
  predicate Answers(req: Request, tx: Tx) {
    && tx.user == req.user
    && tx.key == req.key
    && tx.amount == req.amount
    && (req.DepositReq? ==> tx.kind == DEPOSIT)
    && (req.TransferReq? ==> tx.kind == TRANSFER && tx.to == req.to)
  }

  /** A committed database transaction: its row in wallet.transactions, the call that
      committed it, the id of its outbox row, and the two payload fields that come from
      the wallet rows it read. */
  datatype Commit = Commit(tx: Tx, call: nat, oid: nat, peerUser: Uuid, currency: string)

  // ---------- Kafka ----------

  datatype Topic = TransfersCompleted | WalletDeposited | OtherTopic(name: string)

  type int64 = n: int | -INT64_MAX - 1 <= n <= INT64_MAX

  datatype Json = JString(s: string) | JInteger(n: int64) | JOther

  /** A Kafka record value as the JSON parser sees it. */
  datatype Body = NoValue | Malformed | NotAnObject | Object(fields: map<string, Json>)

  datatype Message = Message(topic: Topic, key: string, body: Body)

  datatype Partition = Partition(topic: Topic, index: nat)

  // ---------- the ledger ----------

  datatype Direction = DEBIT | CREDIT

  datatype Line = Line(account: string, direction: Direction, amount: int)

  datatype Entry = Entry(eventId: string, eventType: string, reference: string, lines: seq<Line>)

  /** What the listener makes of a record: a journal entry to post, or a message for the DLQ. */
  datatype Parsed = Valid(entry: Entry) | Invalid(reason: string)

  const EXTERNAL_CASH := "external:cash"

  function AccountOf(w: Uuid): string {
    "wallet:" + w.text
  }

  /** The journal lines a committed transaction must end up with. */
  function LinesOf(tx: Tx): seq<Line> {
    [Line(if tx.from.Some? then AccountOf(tx.from.value) else EXTERNAL_CASH, DEBIT, tx.amount),
     Line(AccountOf(tx.to), CREDIT, tx.amount)]
  }

  function EntryOf(tx: Tx): Entry {
    Entry(tx.id.text,
          if tx.kind == TRANSFER then "TransferCompleted" else "DepositCompleted",
          tx.id.text, LinesOf(tx))
  }

  // ---------- configuration ----------

  /** The retry limit, the wire format between wallet and ledger, and the hash balancer. The
      protocol is proved for every format that decodes what it encodes, and for every hash. */
  datatype Config = Config(maxRetries: int,
                           encode: Commit -> Message,
                           decode: Message -> Parsed,
                           partition: (Topic, string) -> nat)

  ghost predicate Faithful(cfg: Config) {
    forall cm: Commit :: TxShape(cm.tx) ==> cfg.decode(cfg.encode(cm)) == Valid(EntryOf(cm.tx))
  }

  function PartitionFor(cfg: Config, m: Message): Partition {
    Partition(m.topic, cfg.partition(m.topic, m.key))
  }
}
