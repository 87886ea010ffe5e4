/** The events the wallet writes into its outbox (services/wallet/store.go) and what the ledger
    reads out of them (services/ledger/.../LedgerListener.java). */
module Events {
  import opened Types

  // ---------- the wallet's side ----------

  function Amount(n: int): Json {
    if -INT64_MAX - 1 <= n <= INT64_MAX then JInteger(n) else JOther
  }

  function Text(u: Uuid): Json {
    JString(u.text)
  }

  function DepositFields(cm: Commit): map<string, Json> {
    map["eventId" := Text(cm.tx.id), "type" := JString("DepositCompleted"),
        "transactionId" := Text(cm.tx.id), "walletId" := Text(cm.tx.to), "userId" := Text(cm.tx.user),
        "amountCents" := Amount(cm.tx.amount), "currency" := JString(cm.currency),
        "occurredAt" := JString(cm.tx.createdAt)]
  }

  function TransferFields(cm: Commit, from: Uuid): map<string, Json> {
    map["eventId" := Text(cm.tx.id), "type" := JString("TransferCompleted"),
        "transactionId" := Text(cm.tx.id), "fromWalletId" := Text(from), "toWalletId" := Text(cm.tx.to),
        "fromUserId" := Text(cm.tx.user), "toUserId" := Text(cm.peerUser),
        "amountCents" := Amount(cm.tx.amount), "currency" := JString(cm.currency),
        "occurredAt" := JString(cm.tx.createdAt)]
  }

  /** The outbox row, and later Kafka record, of a committed transaction. */
  function Encode(cm: Commit): Message {
    match cm.tx.from
    case None => Message(WalletDeposited, cm.tx.to.text, Object(DepositFields(cm)))
    case Some(from) => Message(TransfersCompleted, from.text, Object(TransferFields(cm, from)))
  }

  // ---------- the ledger's side ----------

  /** java.lang.Character.isWhitespace */
  predicate IsWhitespace(c: char) {
    var n := c as int;
    || 9 <= n <= 13 || 28 <= n <= 32 || n == 0x1680 || (0x2000 <= n <= 0x200a && n != 0x2007)
    || n == 0x2028 || n == 0x2029 || n == 0x205f || n == 0x3000
  }

  predicate IsBlank(s: string) {
    forall i :: 0 <= i < |s| ==> IsWhitespace(s[i])
  }

  predicate HasText(fields: map<string, Json>, name: string) {
    name in fields && fields[name].JString? && !IsBlank(fields[name].s)
  }

  function Require(fields: map<string, Json>, name: string): Option<string> {
    if HasText(fields, name) then Some(fields[name].s) else None
  }

  function AmountOf(fields: map<string, Json>): Option<int> {
    if "amountCents" in fields && fields["amountCents"].JInteger? && fields["amountCents"].n > 0
    then Some(fields["amountCents"].n) else None
  }

  datatype LinesResult = Lines(lines: seq<Line>) | NoLines(reason: string)

  function LinesFor(topic: Topic, fields: map<string, Json>): LinesResult {
    match AmountOf(fields)
    case None => NoLines("amountCents must be a positive integer")
    case Some(amount) =>
      match topic
      case TransfersCompleted =>
        (match (Require(fields, "fromWalletId"), Require(fields, "toWalletId"))
         case (Some(from), Some(to)) =>
           Lines([Line("wallet:" + from, DEBIT, amount), Line("wallet:" + to, CREDIT, amount)])
         case (None, _) => NoLines("event is missing field \"fromWalletId\"")
         case (_, None) => NoLines("event is missing field \"toWalletId\""))
      case WalletDeposited =>
        (match Require(fields, "walletId")
         case Some(w) => Lines([Line(EXTERNAL_CASH, DEBIT, amount), Line("wallet:" + w, CREDIT, amount)])
         case None => NoLines("event is missing field \"walletId\""))
      case OtherTopic(name) => NoLines("unexpected topic " + name)
  }

  /** LedgerListener.onEvent up to the call of post. */
  function Decode(m: Message): Parsed {
    match m.body
    case NoValue => Invalid("message has no value")
    case Malformed => Invalid("message is not valid JSON")
    case NotAnObject => Invalid("message is not a JSON object")
    case Object(fields) =>
      match (Require(fields, "eventId"), Require(fields, "type"), Require(fields, "transactionId"))
      case (Some(eventId), Some(eventType), Some(reference)) =>
        (match LinesFor(m.topic, fields)
         case Lines(lines) => Valid(Entry(eventId, eventType, reference, lines))
         case NoLines(reason) => Invalid(reason))
      case (None, _, _) => Invalid("event is missing field \"eventId\"")
      case (_, None, _) => Invalid("event is missing field \"type\"")
      case (_, _, None) => Invalid("event is missing field \"transactionId\"")
  }

  // ---------- the two sides fit ----------

  lemma UuidIsNotBlank(u: Uuid)
    requires Canonical(u)
    ensures !IsBlank(u.text)
  {
    assert !IsWhitespace(u.text[0]);
  }

  lemma TypeIsNotBlank()
    ensures !IsBlank("DepositCompleted") && !IsBlank("TransferCompleted")
  {
    assert !IsWhitespace("DepositCompleted"[0]);
    assert !IsWhitespace("TransferCompleted"[0]);
  }

  /** Every committed transaction's event is accepted, and yields exactly its own journal entry:
      nothing the relay sends can end up in the dead-letter queue. */
  lemma DecodeEncode(cm: Commit)
    requires TxShape(cm.tx)
    ensures Decode(Encode(cm)) == Valid(EntryOf(cm.tx))
  {
    UuidIsNotBlank(cm.tx.id);
    UuidIsNotBlank(cm.tx.to);
    TypeIsNotBlank();
    match cm.tx.from
    case None =>
      DecodeDeposit(cm);
    case Some(from) =>
      UuidIsNotBlank(from);
      DecodeTransfer(cm, from);
  }

  lemma DecodeDeposit(cm: Commit)
    requires TxShape(cm.tx) && cm.tx.from.None?
    requires !IsBlank(cm.tx.id.text) && !IsBlank(cm.tx.to.text) && !IsBlank("DepositCompleted")
    ensures Decode(Encode(cm)) == Valid(EntryOf(cm.tx))
  {
    var fields := DepositFields(cm);
    assert Require(fields, "eventId") == Some(cm.tx.id.text);
    assert Require(fields, "type") == Some("DepositCompleted");
    assert Require(fields, "transactionId") == Some(cm.tx.id.text);
    assert Require(fields, "walletId") == Some(cm.tx.to.text);
    assert AmountOf(fields) == Some(cm.tx.amount);
  }

  lemma DecodeTransfer(cm: Commit, from: Uuid)
    requires TxShape(cm.tx) && cm.tx.from == Some(from)
    requires !IsBlank(cm.tx.id.text) && !IsBlank(cm.tx.to.text) && !IsBlank(from.text) && !IsBlank("TransferCompleted")
    ensures Decode(Encode(cm)) == Valid(EntryOf(cm.tx))
  {
    var fields := TransferFields(cm, from);
    assert Require(fields, "eventId") == Some(cm.tx.id.text);
    assert Require(fields, "type") == Some("TransferCompleted");
    assert Require(fields, "transactionId") == Some(cm.tx.id.text);
    assert Require(fields, "fromWalletId") == Some(from.text);
    assert Require(fields, "toWalletId") == Some(cm.tx.to.text);
    assert AmountOf(fields) == Some(cm.tx.amount);
  }

  // ---------- what the listener accepts ----------

  ghost function RequiredTexts(topic: Topic): set<string> {
    {"eventId", "type", "transactionId"} +
    match topic
    case TransfersCompleted => {"fromWalletId", "toWalletId"}
    case WalletDeposited => {"walletId"}
    case OtherTopic(_) => {}
  }

  /** The code points of Character.isWhitespace. */
  const WHITESPACE := {9, 10, 11, 12, 13, 28, 29, 30, 31, 32, 0x1680, 0x2000, 0x2001, 0x2002, 0x2003, 0x2004, 0x2005,
                       0x2006, 0x2008, 0x2009, 0x200a, 0x2028, 0x2029, 0x205f, 0x3000}

  /** The field is a string with a character that is not white space. */
  ghost predicate IsText(fields: map<string, Json>, name: string) {
    && name in fields && fields[name].JString?
    && exists i :: 0 <= i < |fields[name].s| && fields[name].s[i] as int !in WHITESPACE
  }

  lemma TextIs(fields: map<string, Json>, name: string)
    ensures HasText(fields, name) <==> IsText(fields, name)
  {
    if name in fields && fields[name].JString? {
      forall i | 0 <= i < |fields[name].s| ensures IsWhitespace(fields[name].s[i]) <==> fields[name].s[i] as int in WHITESPACE {
        WhitespaceIs(fields[name].s[i]);
      }
    }
  }

  lemma WhitespaceIs(c: char)
    ensures IsWhitespace(c) <==> c as int in WHITESPACE
  {
  }

  predicate HasAmount(fields: map<string, Json>) {
    "amountCents" in fields && fields["amountCents"].JInteger? && fields["amountCents"].n > 0
  }

  /** The listener posts a record if and only if it is a JSON object on a known topic with every
      required text and a positive integer amount; everything else goes to the DLQ. */
  lemma AcceptedIff(m: Message)
    ensures Decode(m).Valid? <==>
      && m.body.Object? && !m.topic.OtherTopic?
      && (forall name :: name in RequiredTexts(m.topic) ==> IsText(m.body.fields, name))
      && HasAmount(m.body.fields)
  {
    if m.body.Object? {
      forall name ensures HasText(m.body.fields, name) <==> IsText(m.body.fields, name) { TextIs(m.body.fields, name); }
      LinesIff(m.topic, m.body.fields);
      if !m.topic.OtherTopic? {
        TextsOf(m.topic, m.body.fields);
      }
    }
  }

  lemma LinesIff(topic: Topic, fields: map<string, Json>)
    ensures LinesFor(topic, fields).Lines? <==> HasAmount(fields) && HasWallets(topic, fields)
  {
  }

  predicate HasWallets(topic: Topic, fields: map<string, Json>) {
    match topic
    case TransfersCompleted => HasText(fields, "fromWalletId") && HasText(fields, "toWalletId")
    case WalletDeposited => HasText(fields, "walletId")
    case OtherTopic(_) => false
  }

  lemma TextsOf(topic: Topic, fields: map<string, Json>)
    requires !topic.OtherTopic?
    ensures (forall name :: name in RequiredTexts(topic) ==> HasText(fields, name)) <==>
      HasText(fields, "eventId") && HasText(fields, "type") && HasText(fields, "transactionId") && HasWallets(topic, fields)
  {
    var names := RequiredTexts(topic);
    assert "eventId" in names && "type" in names && "transactionId" in names;
    assert topic.TransfersCompleted? ==> "fromWalletId" in names && "toWalletId" in names;
    assert topic.WalletDeposited? ==> "walletId" in names;
  }

  function TextOf(fields: map<string, Json>, name: string): string {
    if name in fields && fields[name].JString? then fields[name].s else ""
  }

  /** What an accepted record is booked as: its own ids and type, and its amount out of the sender's
      account or external:cash and into the recipient's. */
  lemma AcceptedEntry(m: Message)
    requires Decode(m).Valid?
    ensures var entry, fields := Decode(m).entry, m.body.fields;
            && entry.eventId == TextOf(fields, "eventId") && entry.eventType == TextOf(fields, "type")
            && entry.reference == TextOf(fields, "transactionId")
            && |entry.lines| == 2 && "amountCents" in fields && fields["amountCents"].JInteger?
            && entry.lines[0].direction == DEBIT && entry.lines[1].direction == CREDIT
            && entry.lines[0].amount == fields["amountCents"].n == entry.lines[1].amount
            && entry.lines[0].account == (if m.topic.TransfersCompleted? then "wallet:" + TextOf(fields, "fromWalletId")
                                          else "external:cash")
            && entry.lines[1].account == "wallet:" + TextOf(fields, if m.topic.TransfersCompleted? then "toWalletId" else "walletId")
  {
  }
}
