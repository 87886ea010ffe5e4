/** services/wallet/store.go as the code runs: Deposit and Transfer inside withRetries, statement by
    statement on the shared database, with the environment acting between any two statements. */
module WalletStore {
  import opened Types
  import opened Engine
  import opened World
  import EngineInvariant
  import EngineSteps
  import EngineTheorems
  import S = System
  import Backoff
  import Refusals

  /** gen_random_uuid(): it may fail, and the ids it gives out are fresh. */
  type IdSource = S.State -> Option<Uuid>

  ghost predicate Fresh(cfg: Config, ids: IdSource) {
    forall s: S.State :: S.Inv(cfg, s) && ids(s).Some? ==> FreshTxId(s.eng, ids(s).value)
  }

  /** The attempt a call is making, and the number of commits and the wallet table when it began. */
  datatype Mark = Mark(attempt: nat, start: nat, known: map<Uuid, Wallet>)

  ghost predicate At(w: Shared, c: CallId, req: Request, mark: Mark)
    reads w
  {
    w.Valid() && c in w.st.eng.calls && Bears(w.st.eng.calls[c], req, mark)
  }

  ghost function MarkOf(call: Call): Mark {
    Mark(call.attempt, call.start, call.known)
  }

  ghost predicate Bears(call: Call, req: Request, mark: Mark) {
    call.req == req && call.attempt == mark.attempt && call.start == mark.start && call.known == mark.known
  }

  class Store {
    const w: Shared
    const ids: IdSource
    /** Per tick: the statement about to run fails (crash, lost connection, cancelled context). */
    const down: nat -> bool
    /** Per tick: a COMMIT succeeds but its reply is lost. */
    const replyLost: nat -> bool
    /** Per tick: the random part of a backoff. */
    const jitter: nat -> nat
    /** The tick at which the caller's context expires. */
    const deadline: nat

    constructor (w: Shared, ids: IdSource, down: nat -> bool, replyLost: nat -> bool, jitter: nat -> nat, deadline: nat)
      ensures this.w == w && this.ids == ids && this.down == down && this.replyLost == replyLost
      ensures this.jitter == jitter && this.deadline == deadline
    {
      this.w := w;
      this.ids := ids;
      this.down := down;
      this.replyLost := replyLost;
      this.jitter := jitter;
      this.deadline := deadline;
    }

    ghost predicate Ready(c: CallId)
      reads w
    {
      w.Valid() && Rely(w.cfg, w.env, Caller(c)) && Fresh(w.cfg, ids)
    }

    function Stage(c: CallId): Stage
      reads w
      requires c in w.st.eng.calls
    {
      w.st.eng.calls[c].stage
    }

    /** The session has inserted neither its transaction nor its outbox row yet. */
    predicate NothingInserted(c: CallId)
      reads w
    {
      IsWorking(w.st.eng, c) && WorkOf(w.st.eng, c).tx.None? && WorkOf(w.st.eng, c).oid.None?
    }

    /** The last thing that happened is this statement. */
    ghost predicate Did(a: Action)
      reads w
    {
      w.trace != [] && w.trace[|w.trace| - 1] == S.Serve(a)
    }

    predicate Cut(tick: nat) {
      down(tick) || tick >= deadline
    }

    /** Nothing else ends a call with an unexpected error: the connection or the context is gone, the
        id generator failed, a row does not fit its columns, or the reply to COMMIT was lost. */
    ghost predicate Excused(c: CallId)
      reads w
    {
      || (Did(Fail(c)) && (Cut(w.tick) || exists s :: NoId(s, c)))
      || (Did(Update(c)) && exists s :: RowTooLarge(s, c))
      || (Did(CommitTx(c, true)) && replyLost(w.tick))
    }

    ghost predicate NoId(s: S.State, c: CallId)
      reads w
    {
      ids(s).None? && c in s.eng.calls && w.st == s.(eng := Finish(s.eng, c, Failed))
    }

    /** The row that the UPDATE was to write in state s does not fit its columns. */
    ghost predicate RowTooLarge(s: S.State, c: CallId)
      reads w
    {
      && CanUpdate(s.eng, c) && !Stale(s.eng, NextWrite(s.eng, c)) && TooLarge(NextWrite(s.eng, c))
      && w.st == s.(eng := Finish(s.eng, c, Failed))
    }

    // ---------- queries ----------

    /** SELECT ... WHERE user_id = $1 AND idempotency_key = $2 */
    static method FindByKey(cs: seq<Commit>, user: Uuid, key: string) returns (hit: Option<nat>)
      ensures hit.Some? ==> hit.value < |cs| && HasKey(cs[hit.value], user, key)
      ensures hit.None? ==> !KeyUsed(cs, user, key)
    {
      var k := KeyIndex(cs, user, key, |cs|);
      EngineSteps.KeyIndexFinds(cs, user, key, |cs|);
      hit := if k < |cs| then Some(k) else None;
    }

    /** SELECT ... WHERE user_id = $1 */
    static method FindByUser(ws: map<Uuid, Wallet>, user: Uuid) returns (row: Option<Uuid>)
      ensures row.Some? ==> row.value in ws && ws[row.value].user == user
      ensures row.None? ==> forall id :: id in ws ==> ws[id].user != user
    {
      if id :| id in ws && ws[id].user == user {
        return Some(id);
      }
      return None;
    }

    // ---------- statements ----------

    /** The environment runs, then this session's connection or context may turn out to be dead. */
    method Turn(c: CallId, ghost req: Request, ghost mark: Mark) returns (alive: bool)
      requires Ready(c) && At(w, c, req, mark) && !Stage(c).Finished?
      modifies w
      ensures Ready(c) && At(w, c, req, mark) && old(w.trace) <= w.trace && w.tick == old(w.tick) + 1
      ensures alive == !Cut(w.tick)
      ensures alive ==> Stage(c) == old(Stage(c))
      ensures !alive ==> Stage(c) == Finished(Failed) && Did(Fail(c))
    {
      w.Interfere(Caller(c));
      alive := !Cut(w.tick);
      if !alive {
        w.Serve(Fail(c), Finish(w.st.eng, c, Failed));
      }
    }

    method LookUpKey(c: CallId, req: Request, ghost mark: Mark)
      requires Ready(c) && At(w, c, req, mark) && Stage(c).FindingKey?
      modifies w
      ensures Ready(c) && At(w, c, req, mark) && old(w.trace) <= w.trace
      ensures Stage(c).ReadingOwn? || Stage(c).Finished?
      ensures if Cut(w.tick) then Did(Fail(c)) else exists hit :: Did(FindKey(c, hit))
      ensures Stage(c) == Finished(Failed) ==> Excused(c)
    {
      var alive := Turn(c, req, mark);
      if !alive { return; }
      var hit := FindByKey(w.st.eng.commits, req.user, req.key);
      w.Serve(FindKey(c, hit), DoFindKey(w.st.eng, c, hit));
      assert Did(FindKey(c, hit));
    }

    method ReadOwnRow(c: CallId, req: Request, ghost mark: Mark)
      requires Ready(c) && At(w, c, req, mark) && Stage(c).ReadingOwn?
      modifies w
      ensures Ready(c) && At(w, c, req, mark) && old(w.trace) <= w.trace
      ensures Stage(c).Finished? || (if req.DepositReq? then NothingInserted(c) else Stage(c).ReadingPeer?)
      ensures if Cut(w.tick) then Did(Fail(c)) else exists row :: Did(ReadOwn(c, row))
      ensures Stage(c) == Finished(Failed) ==> Excused(c)
    {
      var alive := Turn(c, req, mark);
      if !alive { return; }
      var row := FindByUser(w.st.eng.wallets, req.user);
      w.Serve(ReadOwn(c, row), DoReadOwn(w.st.eng, c, row));
      assert Did(ReadOwn(c, row));
    }

    method ReadPeerRow(c: CallId, req: Request, ghost mark: Mark)
      requires Ready(c) && At(w, c, req, mark) && Stage(c).ReadingPeer? && req.TransferReq?
      modifies w
      ensures Ready(c) && At(w, c, req, mark) && old(w.trace) <= w.trace
      ensures Stage(c).Finished? || NothingInserted(c)
      ensures if Cut(w.tick) then Did(Fail(c)) else Did(ReadPeer(c))
      ensures Stage(c) == Finished(Failed) ==> Excused(c)
    {
      var alive := Turn(c, req, mark);
      if !alive { return; }
      PeerReplies(w.st.eng, c);
      w.Serve(ReadPeer(c), DoReadPeer(w.st.eng, c));
    }

    /** The UPDATE of applyDelta waits while its row is locked. */
    method AwaitRow(c: CallId, req: Request, ghost mark: Mark) returns (alive: bool)
      requires Ready(c) && At(w, c, req, mark) && AtUpdate(w.st.eng, c)
      modifies w
      ensures Ready(c) && At(w, c, req, mark) && old(w.trace) <= w.trace
      ensures alive == !Cut(w.tick)
      ensures alive ==> Stage(c) == old(Stage(c)) && CanUpdate(w.st.eng, c)
      ensures !alive ==> Stage(c) == Finished(Failed) && Did(Fail(c))
    {
      alive := Turn(c, req, mark);
      while alive && Blocked(w.st.eng, c)
        invariant Ready(c) && At(w, c, req, mark) && old(w.trace) <= w.trace && alive == !Cut(w.tick)
        invariant alive ==> Stage(c) == old(Stage(c))
        invariant !alive ==> Stage(c) == Finished(Failed) && Did(Fail(c))
        decreases deadline - w.tick, alive
      {
        alive := Turn(c, req, mark);
      }
    }

    /** applyDelta: wait for the row, then update it if its version is still the one read. */
    method ApplyDelta(c: CallId, req: Request, ghost mark: Mark)
      requires Ready(c) && At(w, c, req, mark) && AtUpdate(w.st.eng, c) && NothingInserted(c)
      modifies w
      ensures Ready(c) && At(w, c, req, mark) && old(w.trace) <= w.trace
      ensures Stage(c).Finished? || Stage(c).BackingOff? || NothingInserted(c)
      ensures IsWorking(w.st.eng, c) ==>
                && PlanOf(w.st.eng, c) == old(PlanOf(w.st.eng, c))
                && |WorkOf(w.st.eng, c).held| == old(|WorkOf(w.st.eng, c).held|) + 1
      ensures if Cut(w.tick) then Did(Fail(c)) else Did(Update(c))
      ensures Stage(c).Finished? ==> Stage(c) == Finished(Failed) && Excused(c)
    {
      var alive := AwaitRow(c, req, mark);
      if alive {
        UpdateShape(w.st.eng, c);
        UpdateFailure(c);
        ghost var s := w.st;
        w.Serve(Update(c), DoUpdate(w.st.eng, c));
        assert Stage(c).Finished? ==> RowTooLarge(s, c);
      }
    }

    /** An UPDATE fails for no other reason: the balance check never does. */
    lemma UpdateFailure(c: CallId)
      requires w.Valid() && CanUpdate(w.st.eng, c)
      ensures var e, write := w.st.eng, NextWrite(w.st.eng, c);
              DoUpdate(e, c).calls[c].stage.Finished? ==>
                !Stale(e, write) && TooLarge(write) && DoUpdate(e, c) == Finish(e, c, Failed)
    {
      w.Holds();
      var e := w.st.eng;
      assert EngineInvariant.CallOk(w.cfg.maxRetries, e.wallets, e.commits, e.nextOid, e.locks, c, e.calls[c]);
      if !Stale(e, NextWrite(e, c)) {
        EngineSteps.CheckNeverFires(w.cfg.maxRetries, e, c);
      }
    }

    method InsertTransaction(c: CallId, req: Request, at: string, ghost mark: Mark)
      requires Ready(c) && At(w, c, req, mark) && AtInsertTx(w.st.eng, c)
      modifies w
      ensures Ready(c) && At(w, c, req, mark) && old(w.trace) <= w.trace
      ensures Stage(c).Finished? || Stage(c).BackingOff? || (HasTx(w.st.eng, c) && Stage(c).work.oid == old(Stage(c).work.oid))
      ensures Stage(c).Finished? ==> Stage(c) == Finished(Failed) && Excused(c)
      ensures !Stage(c).Finished? ==> exists id :: Did(InsertTx(c, id, at))
    {
      var alive := Turn(c, req, mark);
      if !alive { return; }
      var id := ids(w.st);
      if id.None? {
        ghost var s := w.st;
        w.Serve(Fail(c), Finish(w.st.eng, c, Failed));
        assert NoId(s, c);
        return;
      }
      NoWait(c);
      InsertShape(w.st.eng, c, id.value, at);
      w.Serve(InsertTx(c, id.value, at), DoInsertTx(w.st.eng, c, id.value, at));
      assert Did(InsertTx(c, id.value, at));
    }

    lemma NoWait(c: CallId)
      requires w.Valid() && AtInsertTx(w.st.eng, c) && Fresh(w.cfg, ids) && ids(w.st).Some?
      ensures CanInsertTx(w.st.eng, c, ids(w.st).value)
    {
      w.Holds();
      forall d | d in w.st.eng.calls ensures !UniqueWait(w.st.eng, c, d) {
        EngineTheorems.UniqueIndexNeverWaits(w.cfg.maxRetries, w.st.eng, c, d);
      }
    }

    method InsertOutboxRow(c: CallId, req: Request, ghost mark: Mark)
      requires Ready(c) && At(w, c, req, mark) && CanInsertOutbox(w.st.eng, c)
      modifies w
      ensures Ready(c) && At(w, c, req, mark) && old(w.trace) <= w.trace
      ensures if Cut(w.tick) then Did(Fail(c)) && Stage(c) == Finished(Failed)
              else Did(InsertOutbox(c)) && CanCommit(w.st.eng, c)
    {
      var alive := Turn(c, req, mark);
      if !alive { return; }
      w.Serve(InsertOutbox(c), DoInsertOutbox(w.st.eng, c));
    }

    method CommitSession(c: CallId, req: Request, ghost mark: Mark)
      requires Ready(c) && At(w, c, req, mark) && CanCommit(w.st.eng, c)
      modifies w
      ensures Ready(c) && At(w, c, req, mark) && old(w.trace) <= w.trace
      ensures if Cut(w.tick) then Did(Fail(c)) && Stage(c) == Finished(Failed)
              else
                && Did(CommitTx(c, replyLost(w.tick)))
                && Stage(c) == Finished(if replyLost(w.tick) then Failed else Success(old(Stage(c).work.tx.value), false))
    {
      var alive := Turn(c, req, mark);
      if !alive { return; }
      w.Commit(c, replyLost(w.tick));
    }

    // ---------- one attempt ----------

    /** The reads and checks of Deposit or Transfer. */
    method ReadPhase(c: CallId, req: Request, ghost mark: Mark)
      requires Ready(c) && At(w, c, req, mark) && Stage(c).FindingKey?
      modifies w
      ensures Ready(c) && At(w, c, req, mark) && old(w.trace) <= w.trace
      ensures Stage(c).Finished? || NothingInserted(c)
      ensures Stage(c) == Finished(Failed) ==> Excused(c)
    {
      LookUpKey(c, req, mark);
      if Stage(c).Finished? { return; }
      ReadOwnRow(c, req, mark);
      if Stage(c).Finished? || req.DepositReq? { return; }
      ReadPeerRow(c, req, mark);
    }

    lemma HeldWithinPlan(c: CallId)
      requires w.Valid() && IsWorking(w.st.eng, c)
      ensures |WorkOf(w.st.eng, c).held| <= |PlanOf(w.st.eng, c)|
    {
      w.Holds();
      var e := w.st.eng;
      assert EngineInvariant.CallOk(w.cfg.maxRetries, e.wallets, e.commits, e.nextOid, e.locks, c, e.calls[c]);
    }

    /** The UPDATEs, in wallet id order. */
    method UpdatePhase(c: CallId, req: Request, ghost mark: Mark)
      requires Ready(c) && At(w, c, req, mark) && NothingInserted(c)
      modifies w
      ensures Ready(c) && At(w, c, req, mark) && old(w.trace) <= w.trace
      ensures Stage(c).Finished? || Stage(c).BackingOff? || (NothingInserted(c) && AtInsertTx(w.st.eng, c))
      ensures Stage(c) == Finished(Failed) ==> Excused(c)
    {
      HeldWithinPlan(c);
      while NothingInserted(c) && |WorkOf(w.st.eng, c).held| < |PlanOf(w.st.eng, c)|
        invariant Ready(c) && At(w, c, req, mark) && old(w.trace) <= w.trace
        invariant Stage(c).Finished? || Stage(c).BackingOff? || NothingInserted(c)
        invariant Stage(c) == Finished(Failed) ==> Excused(c)
        invariant NothingInserted(c) ==> |WorkOf(w.st.eng, c).held| <= |PlanOf(w.st.eng, c)|
        decreases if NothingInserted(c) then |PlanOf(w.st.eng, c)| - |WorkOf(w.st.eng, c).held| else 0
      {
        ApplyDelta(c, req, mark);
      }
    }

    /** The INSERTs and COMMIT. */
    method WritePhase(c: CallId, req: Request, at: string, ghost mark: Mark)
      requires Ready(c) && At(w, c, req, mark) && AtInsertTx(w.st.eng, c) && WorkOf(w.st.eng, c).oid.None?
      modifies w
      ensures Ready(c) && At(w, c, req, mark) && old(w.trace) <= w.trace
      ensures Stage(c).Finished? || Stage(c).BackingOff?
      ensures Stage(c) == Finished(Failed) ==> Excused(c)
    {
      InsertTransaction(c, req, at, mark);
      if !IsWorking(w.st.eng, c) { return; }
      InsertOutboxRow(c, req, mark);
      if Stage(c).Finished? { return; }
      CommitSession(c, req, mark);
    }

    /** fn(tx) inside pgx.BeginFunc: it ends committed, replayed, refused, failed or to be retried. */
    method Attempt(c: CallId, req: Request, at: string, ghost mark: Mark)
      requires Ready(c) && At(w, c, req, mark) && Stage(c).FindingKey?
      modifies w
      ensures Ready(c) && At(w, c, req, mark) && old(w.trace) <= w.trace
      ensures Stage(c).Finished? || Stage(c).BackingOff?
      ensures Stage(c) == Finished(Failed) ==> Excused(c)
    {
      ReadPhase(c, req, mark);
      if Stage(c).Finished? { return; }
      UpdatePhase(c, req, mark);
      if !NothingInserted(c) { return; }
      WritePhase(c, req, at, mark);
    }

    // ---------- the retry loop ----------

    /** withRetries. `waited` is the total of the random waits; a limit that is not positive makes
        rand.N panic, which ends the call without an answer. */
    method WithRetries(c: CallId, req: Request, at: string)
      returns (reply: Reply, waited: nat, panicked: bool, ghost waits: seq<nat>)
      requires Ready(c) && c !in w.st.eng.calls && ValidRequest(req)
      modifies w
      ensures w.Valid() && old(w.trace) <= w.trace
      ensures Concluded(w.cfg.maxRetries, w.st.eng, c, req, reply)
      ensures reply.Rejected? ==>
                Refusals.Caused(w.st.eng.wallets, w.st.eng.commits, req, |old(w.st.eng.commits)|, old(w.st.eng.wallets), reply.error)
      ensures reply.Failed? ==> panicked || Excused(c)
      ensures w.cfg.maxRetries <= 39 ==> !panicked
      ensures Backoff.Drawn(waits) && waited == Backoff.Total(waits)
      ensures 1 <= w.cfg.maxRetries ==> |waits| <= w.cfg.maxRetries && waited < Backoff.Bound(w.cfg.maxRetries)
    {
      ghost var mark := Mark(1, |w.st.eng.commits|, w.st.eng.wallets);
      Start(c, req, mark);
      waited, panicked, waits := Loop(c, req, at, mark);
      if 1 <= w.cfg.maxRetries {
        Backoff.TotalIsBelow(waits, w.cfg.maxRetries);
      }
      reply := Conclude(c, req, mark);
      if reply.Rejected? {
        Cause(c, req, reply.error);
      }
    }

    /** The loop of withRetries, to the end of the call. */
    method Loop(c: CallId, req: Request, at: string, ghost mark: Mark) returns (waited: nat, panicked: bool, ghost waits: seq<nat>)
      requires Ready(c) && AtAttempt(c, req, mark) && mark.attempt == 1
      modifies w
      ensures w.Valid() && old(w.trace) <= w.trace && Same(c, req, mark) && Stage(c).Finished?
      ensures Stage(c) == Finished(Failed) ==> panicked || Excused(c)
      ensures w.cfg.maxRetries <= 39 ==> !panicked
      ensures Backoff.Drawn(waits) && waited == Backoff.Total(waits)
      ensures 1 <= w.cfg.maxRetries ==> |waits| <= w.cfg.maxRetries
    {
      waited, panicked, waits := 0, false, [];
      var attempt := 1;
      while attempt <= w.cfg.maxRetries
        invariant Ready(c) && old(w.trace) <= w.trace && !panicked
        invariant 1 <= attempt && (w.cfg.maxRetries >= 1 ==> attempt <= w.cfg.maxRetries + 1)
        invariant AtAttempt(c, req, mark.(attempt := attempt))
        invariant |waits| == attempt - 1 && Backoff.Drawn(waits) && waited == Backoff.Total(waits)
      {
        var over, wait;
        over, wait, panicked := Round(c, req, at, attempt, mark.(attempt := attempt));
        if over {
          break;
        }
        Backoff.DrawnSnoc(waits, wait);
        waits := waits + [wait];
        waited := waited + wait;
        attempt := attempt + 1;
      }
    }

    method Start(c: CallId, req: Request, ghost mark: Mark)
      requires Ready(c) && c !in w.st.eng.calls && ValidRequest(req)
      requires mark == Mark(1, |w.st.eng.commits|, w.st.eng.wallets)
      modifies w
      ensures Ready(c) && old(w.trace) <= w.trace && AtAttempt(c, req, mark)
    {
      w.Serve(Begin(c, req), DoBegin(w.cfg.maxRetries, w.st.eng, c, req));
    }

    /** The call records this beginning. */
    ghost predicate Same(c: CallId, req: Request, mark: Mark)
      reads w
    {
      && c in w.st.eng.calls && w.st.eng.calls[c].req == req
      && w.st.eng.calls[c].start == mark.start && w.st.eng.calls[c].known == mark.known
    }

    /** The call is about to make this attempt, or has used up all attempts. */
    ghost predicate AtAttempt(c: CallId, req: Request, mark: Mark)
      reads w
    {
      && Same(c, req, mark)
      && if mark.attempt <= w.cfg.maxRetries then Stage(c).FindingKey? && w.st.eng.calls[c].attempt == mark.attempt
         else Stage(c) == Finished(TooMuchContention)
    }

    /** The body of the retry loop. */
    method Round(c: CallId, req: Request, at: string, attempt: nat, ghost mark: Mark)
      returns (over: bool, wait: nat, panicked: bool)
      requires Ready(c) && AtAttempt(c, req, mark) && 1 <= attempt <= w.cfg.maxRetries && mark.attempt == attempt
      modifies w
      ensures Ready(c) && old(w.trace) <= w.trace
      ensures over ==> Same(c, req, mark) && Stage(c).Finished?
      ensures over && Stage(c) == Finished(Failed) ==> panicked || Excused(c)
      ensures !over ==> AtAttempt(c, req, mark.(attempt := attempt + 1)) && !panicked && wait < Backoff.Limit(attempt)
      ensures panicked ==> attempt > 39
    {
      Attempt(c, req, at, mark);
      if Stage(c).Finished? {
        return true, 0, false;
      }
      var alive;
      alive, wait, panicked := BackOff(c, req, attempt, mark);
      over := !alive;
    }

    /** The wait after a retryable failure, and the step to the next attempt. */
    method BackOff(c: CallId, req: Request, attempt: nat, ghost mark: Mark) returns (alive: bool, wait: nat, panicked: bool)
      requires Ready(c) && At(w, c, req, mark) && Stage(c).BackingOff?
      requires 1 <= attempt <= w.cfg.maxRetries && mark.attempt == attempt
      modifies w
      ensures Ready(c) && old(w.trace) <= w.trace
      ensures alive ==> AtAttempt(c, req, mark.(attempt := attempt + 1)) && !panicked && wait < Backoff.Limit(attempt)
      ensures alive && jitter(old(w.tick)) < Backoff.Limit(attempt) ==> wait == jitter(old(w.tick))
      ensures !alive ==> Same(c, req, mark) && Stage(c) == Finished(Failed)
      ensures !alive ==> panicked || Excused(c)
      ensures panicked ==> attempt > 39
    {
      wait, panicked := Backoff.DrawWait(attempt, jitter(w.tick));
      if panicked {
        w.Serve(Fail(c), Finish(w.st.eng, c, Failed));
        return false, wait, true;
      }
      alive := Turn(c, req, mark);
      if alive {
        w.Serve(Resume(c), DoResume(w.cfg.maxRetries, w.st.eng, c));
      }
    }

    /** Return to the caller. */
    method Conclude(c: CallId, ghost req: Request, ghost mark: Mark) returns (reply: Reply)
      requires w.Valid() && Same(c, req, mark) && Stage(c).Finished?
      ensures Concluded(w.cfg.maxRetries, w.st.eng, c, req, reply)
    {
      Outcome(c);
      reply := Stage(c).reply;
    }

    lemma Outcome(c: CallId)
      requires w.Valid() && c in w.st.eng.calls && Stage(c).Finished?
      ensures Concluded(w.cfg.maxRetries, w.st.eng, c, w.st.eng.calls[c].req, Stage(c).reply)
    {
      w.Holds();
      var e := w.st.eng;
      assert EngineInvariant.CallOk(w.cfg.maxRetries, e.wallets, e.commits, e.nextOid, e.locks, c, e.calls[c]);
    }

    /** What the finished call was refused for. */
    lemma Cause(c: CallId, req: Request, error: BusinessError)
      requires w.Valid() && c in w.st.eng.calls && w.st.eng.calls[c].req == req && Stage(c) == Finished(Rejected(error))
      ensures var e, call := w.st.eng, w.st.eng.calls[c];
              Refusals.Caused(e.wallets, e.commits, req, call.start, call.known, error)
    {
      Refusals.ReachableFine(w.cfg, w.trace);
      assert Refusals.CallFine(w.st.eng.wallets, w.st.eng.commits, w.st.eng.calls[c]);
    }

    /** A success names a committed deposit of exactly this amount under this key; an unexpected error
        has a cause outside the protocol; a refusal has its cause in the tables. */
    method Deposit(c: CallId, user: Uuid, amount: int, key: string, at: string) returns (reply: Reply)
      requires Ready(c) && c !in w.st.eng.calls
      requires 0 < amount <= 0x7fff_ffff_ffff_ffff && 1 <= |key| <= 200 && Canonical(user)
      modifies w
      ensures w.Valid() && old(w.trace) <= w.trace
      ensures Concluded(w.cfg.maxRetries, w.st.eng, c, DepositReq(user, amount, key), reply)
      ensures reply.Rejected? ==> DepositCause(old(w.st.eng), w.st.eng, user, amount, key, reply.error)
      ensures reply.Success? ==> reply.tx.kind == DEPOSIT && reply.tx.user == user && reply.tx.amount == amount
      ensures reply.Failed? && w.cfg.maxRetries <= 39 ==> Excused(c)
    {
      ghost var before := w.st.eng;
      var r, _, _, _ := WithRetries(c, DepositReq(user, amount, key), at);
      reply := r;
      if reply.Rejected? {
        DepositIsCaused(before, w.st.eng, user, amount, key, reply.error);
      }
    }

    /** ... and a committed transfer of exactly this amount to this wallet. */
    method Transfer(c: CallId, user: Uuid, to: Uuid, amount: int, key: string, at: string) returns (reply: Reply)
      requires Ready(c) && c !in w.st.eng.calls
      requires 0 < amount <= 0x7fff_ffff_ffff_ffff && 1 <= |key| <= 200 && Canonical(user) && Canonical(to)
      modifies w
      ensures w.Valid() && old(w.trace) <= w.trace
      ensures Concluded(w.cfg.maxRetries, w.st.eng, c, TransferReq(user, to, amount, key), reply)
      ensures reply.Rejected? ==> TransferCause(old(w.st.eng), w.st.eng, user, to, amount, key, reply.error)
      ensures reply.Success? ==>
                reply.tx.kind == TRANSFER && reply.tx.user == user && reply.tx.to == to && reply.tx.amount == amount
      ensures reply.Failed? && w.cfg.maxRetries <= 39 ==> Excused(c)
    {
      ghost var before := w.st.eng;
      var r, _, _, _ := WithRetries(c, TransferReq(user, to, amount, key), at);
      reply := r;
      if reply.Rejected? {
        TransferIsCaused(before, w.st.eng, user, to, amount, key, reply.error);
      }
    }
  }

  /** The new balance does not fit a bigint, or the new version an integer. */
  ghost predicate TooLarge(write: Write) {
    write.row.balance + write.delta > 0x7fff_ffff_ffff_ffff || write.row.version + 1 > 0x7fff_ffff
  }

  // ---------- why a call is refused ----------

  /** A deposit is refused only if the user had no wallet when the call began, or used the key for
      something else. */
  ghost predicate DepositCause(before: Engine, after: Engine, user: Uuid, amount: int, key: string, error: BusinessError) {
    match error
    case WalletNotFound => forall w :: w in before.wallets ==> before.wallets[w].user != user
    case IdempotencyConflict =>
      exists i :: 0 <= i < |after.commits| && var tx := after.commits[i].tx;
        tx.user == user && tx.key == key && !(tx.kind == DEPOSIT && tx.amount == amount)
    case _ => false
  }

  lemma DepositIsCaused(before: Engine, after: Engine, user: Uuid, amount: int, key: string, error: BusinessError)
    requires Refusals.Caused(after.wallets, after.commits, DepositReq(user, amount, key), |before.commits|, before.wallets, error)
    ensures DepositCause(before, after, user, amount, key, error)
  {
  }

  /** A transfer is refused only if one of the wallets was missing when the call began, they are one and
      the same or differ in currency, the user's committed balance was below the amount at some moment
      of the call, or the user used the key for something else. */
  ghost predicate TransferCause(before: Engine, after: Engine, user: Uuid, to: Uuid, amount: int, key: string,
                                error: BusinessError)
  {
    var ws := after.wallets;
    match error
    case WalletNotFound => forall w :: w in before.wallets ==> before.wallets[w].user != user
    case PeerNotFound => to !in before.wallets
    case SameWallet => to in ws && ws[to].user == user
    case CurrencyMismatch => to in ws && exists w :: w in ws && ws[w].user == user && w != to && ws[w].currency != ws[to].currency
    case InsufficientFunds =>
      && to in ws
      && exists w, n :: w in ws && ws[w].user == user && w != to && |before.commits| <= n <= |after.commits|
           && EngineInvariant.Net(after.commits[..n], w) < amount
    case IdempotencyConflict =>
      exists i :: 0 <= i < |after.commits| && var tx := after.commits[i].tx;
        tx.user == user && tx.key == key && !(tx.kind == TRANSFER && tx.amount == amount && tx.to == to)
  }

  lemma TransferIsCaused(before: Engine, after: Engine, user: Uuid, to: Uuid, amount: int, key: string,
                         error: BusinessError)
    requires Refusals.Caused(after.wallets, after.commits, TransferReq(user, to, amount, key), |before.commits|,
                             before.wallets, error)
    ensures TransferCause(before, after, user, to, amount, key, error)
  {
    if error.InsufficientFunds? {
      var w, n: nat :| Refusals.Owns(after.wallets, user, w) && w != to && |before.commits| <= n
        && Refusals.ShortAt(after.commits, w, amount, n);
      assert w in after.wallets && EngineInvariant.Net(after.commits[..n], w) < amount;
    }
  }

  // ---------- what single statements leave ----------

  lemma PeerReplies(e: Engine, c: CallId)
    requires CanReadPeer(e, c)
    ensures var e' := DoReadPeer(e, c);
            && c in e'.calls && Bears(e'.calls[c], e.calls[c].req, MarkOf(e.calls[c]))
            && var s := e'.calls[c].stage;
               (s.Finished? && s.reply.Rejected?) || (s.Working? && s.work.tx.None? && s.work.oid.None?)
  {
  }

  lemma UpdateShape(e: Engine, c: CallId)
    requires CanUpdate(e, c)
    ensures var e', k := DoUpdate(e, c), WorkOf(e, c);
            && c in e'.calls && Bears(e'.calls[c], e.calls[c].req, MarkOf(e.calls[c]))
            && var s := e'.calls[c].stage;
               || s.BackingOff?
               || s == Finished(Failed)
               || (s.Working? && s.work == k.(held := s.work.held) && |s.work.held| == |k.held| + 1)
  {
  }

  lemma InsertShape(e: Engine, c: CallId, id: Uuid, at: string)
    requires AtInsertTx(e, c)
    ensures var e', k := DoInsertTx(e, c, id, at), WorkOf(e, c);
            && c in e'.calls && Bears(e'.calls[c], e.calls[c].req, MarkOf(e.calls[c]))
            && var s := e'.calls[c].stage;
               s.BackingOff? || (s.Working? && s.work.tx.Some? && s.work == k.(tx := s.work.tx))
  {
  }

  /** The call has returned `reply`: a success names a committed transaction that answers the request,
      and a contention error is backed by that many commits of others. */
  ghost predicate Concluded(m: int, e: Engine, c: CallId, req: Request, reply: Reply) {
    && c in e.calls && e.calls[c].req == req && e.calls[c].stage == Finished(reply)
    && (reply.Success? ==> Answers(req, reply.tx) && Committed(e.commits, reply.tx))
    && (reply.TooMuchContention? ==> Contended(m, e, c))
  }

  ghost predicate Committed(cs: seq<Commit>, tx: Tx) {
    exists i :: 0 <= i < |cs| && cs[i].tx == tx
  }

  /** Every attempt of the call lost to a different commit of another call on its wallets. */
  ghost predicate Contended(m: int, e: Engine, c: CallId)
    requires c in e.calls
  {
    var call := e.calls[c];
    && |call.charged| == (if m < 0 then 0 else m) && call.uniques <= 1
    && (forall j, k :: 0 <= j < k < |call.charged| ==> call.charged[j].failed <= call.charged[k].since)
    && (forall k :: 0 <= k < |call.charged| ==> EngineInvariant.Chargeable(e.wallets, e.commits, c, call, call.charged[k]))
  }
}
