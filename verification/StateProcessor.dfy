/** Applying the transactions of a block one after the other, and blocks one after the other. */
module StateProcessing {
  import opened Basics
  import opened Headers
  import opened Accounts
  import opened GasPools
  import opened Messages
  import opened StateTransitions

  datatype Receipt = Receipt(gasUsed: nat, cumulativeGasUsed: nat, failed: bool)
  datatype Block = Block(gasLimit: nat, txs: seq<Transaction>, ctx: Context, posa: bool)

  // Closing a transaction: destroyed and empty accounts go and the refund counter is cleared.
  datatype Closed = Closed(world: World, burnt: nat)
  type Closer = World -> Closed

  ghost predicate CloseLaw(w: World, c: Closed) {
    Sized(c.world) && Total(c.world) + c.burnt == Total(w) && Forward(w, c.world) && c.world.refund == 0
  }

  ghost predicate LawfulCloser(close: Closer) {
    forall w :: Sized(w) ==> CloseLaw(w, close(w))
  }

  // What decoding and header validation guarantee.
  ghost predicate WellFormed(b: Block) {
    && b.gasLimit < TWO_64
    && (b.ctx.rules.london ==> b.ctx.baseFee.Some?)
    && forall i :: 0 <= i < |b.txs| ==> Typed(b.txs[i].fields) && b.txs[i].fields.gasPrice <= b.txs[i].fields.gasFeeCap
  }

  ghost function GasSum(receipts: seq<Receipt>): nat {
    if receipts == [] then 0 else GasSum(receipts[..|receipts| - 1]) + receipts[|receipts| - 1].gasUsed
  }

  // Every receipt's cumulative gas is the sum of the gas used up to and with it.
  ghost predicate Cumulative(receipts: seq<Receipt>) {
    forall i :: 0 <= i < |receipts| ==> receipts[i].cumulativeGasUsed == GasSum(receipts[..i + 1])
  }

  lemma {:induction false} CumulativeAppend(receipts: seq<Receipt>, r: Receipt)
    requires Cumulative(receipts) && r.cumulativeGasUsed == GasSum(receipts) + r.gasUsed
    ensures Cumulative(receipts + [r]) && GasSum(receipts + [r]) == r.cumulativeGasUsed
  {
    var all := receipts + [r];
    assert all[..|receipts|] == receipts && all[..|all|] == all;
    forall i | 0 <= i < |all| ensures all[i].cumulativeGasUsed == GasSum(all[..i + 1]) {
      if i < |receipts| {
        assert all[..i + 1] == receipts[..i + 1];
      }
    }
  }

  // The fees that leave the balances when blobs are paid for outside Parlia.
  ghost function BlobLoss(ms: seq<Message>, ctx: Context): nat {
    if ms == [] || ctx.rules.parlia then 0
    else BlobLoss(ms[..|ms| - 1], ctx) + BlobFee(ms[|ms| - 1], ctx, ctx.blobBaseFee)
  }

  ghost function BaseFeeLoss(used: nat, ctx: Context): nat {
    if ctx.rules.london then Cost(used, BaseFee(ctx)) else 0
  }

  // What is left, what was burnt and the fees lost make up the total.
  ghost predicate Balanced(left: nat, burnt: nat, used: nat, ms: seq<Message>, ctx: Context, total: nat) {
    left + burnt + BaseFeeLoss(used, ctx) + BlobLoss(ms, ctx) == total
  }

  lemma {:induction false} BalancedAppend(ms: seq<Message>, ctx: Context, m: Message, used: nat, more: nat, sum: nat,
                                          left: nat, burnt: nat, left': nat, more': nat, total: nat)
    requires Balanced(left, burnt, used, ms, ctx, total)
    requires sum == used + more && left' + more' + Loss(m, ctx, more) == left
    ensures Balanced(left', burnt + more', sum, ms + [m], ctx, total)
  {
    assert (ms + [m])[..|ms|] == ms;
    CostAdd(used, more, BaseFee(ctx));
  }

  // The message is charged some gas before it runs.
  ghost predicate Taxed(m: Message, ctx: Context) {
    |m.data| < TWO_64 && Intrinsic(m, ctx) > 0
  }

  // The intrinsic gas of the message fits 64 bits, lists included.
  ghost predicate Plain(m: Message, ctx: Context) {
    |m.data| < TWO_64 && PlainGas(m, ctx) + ListGas(m.accessList, Auths(m)) < TWO_64
  }

  // No message with an intrinsic cost is free, and none whose intrinsic gas fits 64 bits gets by with
  // less than half the base gas.
  ghost predicate Costly(m: Message, ctx: Context, used: nat) {
    (Taxed(m, ctx) ==> used > 0) && (Plain(m, ctx) ==> used >= TX_GAS / 2)
  }

  lemma {:induction false} CostlyEnough(m: Message, ctx: Context, r: Result, gasLeft: nat)
    requires |m.data| < TWO_64 && gasLeft + Intrinsic(m, ctx) <= m.gasLimit
    requires r.Done? && r.usedGas + r.refundedGas == m.gasLimit - gasLeft
    requires Economical(r.usedGas, m.gasLimit - gasLeft, ctx)
    ensures Costly(m, ctx, r.usedGas)
  {
  }

  ghost predicate Ample(ms: seq<Message>, receipts: seq<Receipt>, ctx: Context) {
    |ms| == |receipts| && forall i :: 0 <= i < |ms| ==> Costly(ms[i], ctx, receipts[i].gasUsed)
  }

  lemma {:induction false} AmpleAppend(ms: seq<Message>, receipts: seq<Receipt>, ctx: Context, m: Message, r: Receipt)
    requires Ample(ms, receipts, ctx) && Costly(m, ctx, r.gasUsed)
    ensures Ample(ms + [m], receipts + [r], ctx)
  {
    forall i | 0 <= i < |ms + [m]|
      ensures Costly((ms + [m])[i], ctx, (receipts + [r])[i].gasUsed)
    {
      assert i < |ms| ==> Costly(ms[i], ctx, receipts[i].gasUsed);
    }
  }

  /* What has been applied */

  // The messages applied so far, all signatures spent, in order, and for every message where among
  // them its own stands.
  datatype Ledger = Ledger(applied: seq<Message>, marks: seq<nat>, log: seq<Spend>)

  ghost function Entered(l: Ledger, m: Message, spends: seq<Spend>): Ledger {
    Ledger(l.applied + [m], l.marks + [|l.log|], l.log + spends)
  }

  ghost predicate Marked(l: Ledger) {
    && |l.marks| == |l.applied|
    && (forall i :: 0 <= i < |l.marks| ==>
          l.marks[i] < |l.log| && l.log[l.marks[i]] == Spend(l.applied[i].from, l.applied[i].nonce))
    && (forall i, j :: 0 <= i < j < |l.marks| ==> l.marks[i] < l.marks[j])
  }

  lemma {:induction false} EnteredMarked(l: Ledger, m: Message, spends: seq<Spend>)
    requires Marked(l) && |spends| > 0 && spends[0] == Spend(m.from, m.nonce)
    ensures Marked(Entered(l, m, spends))
  {
  }

  ghost predicate SameSignature(a: Message, b: Message) {
    a.from == b.from && a.nonce == b.nonce
  }

  // No two applied messages, and so no message twice, were signed with the same nonce.
  ghost predicate AllDistinct(ms: seq<Message>) {
    forall i, j :: 0 <= i < j < |ms| ==> !SameSignature(ms[i], ms[j])
  }

  lemma {:induction false} MarkedAreDistinct(w: World, l: Ledger)
    requires NoReplay(w, l.log) && Marked(l)
    ensures AllDistinct(l.applied)
  {
    forall i, j | 0 <= i < j < |l.applied|
      ensures !SameSignature(l.applied[i], l.applied[j])
    {
      assert l.log[l.marks[i]] != l.log[l.marks[j]];
    }
  }

  // What applying a message does to the world, the pool and the log.
  ghost predicate Applied(m: Message, ctx: Context, w: World, pool: nat, usedGas: nat,
                          w': World, pool': nat, receipt: Receipt, burnt: nat) {
    && Sized(w') && Forward(w, w')
    && Total(w') + burnt + Loss(m, ctx, receipt.gasUsed) == Total(w)
    && pool' + receipt.gasUsed == pool && receipt.cumulativeGasUsed == usedGas + receipt.gasUsed
    && Costly(m, ctx, receipt.gasUsed)
  }

  function ReceiptOf(usedGas: nat, o: Outcome): Receipt {
    Receipt(o.used, usedGas + o.used, o.failed)
  }

  // A receipt says what the run said about failing, and accounts for the gas gone less the refund.
  lemma {:induction false} ReceiptSays(run: Machine, m: Message, ctx: Context, w: World, usedGas: nat)
    requires |m.data| < TWO_64
    ensures var e, r := EffectOf(run, m, ctx, w), ReceiptOf(usedGas, OutcomeOf(run, m, ctx, w));
            var gross := Gross(run, m, ctx, w);
            && r.failed == e.failed && r.cumulativeGasUsed == usedGas + r.gasUsed
            && r.gasUsed + Refund(gross, ctx, e.world.refund) == gross
  {
    var gross := Gross(run, m, ctx, w);
    RefundCap(gross, ctx, Refund(gross, ctx, EffectOf(run, m, ctx, w).world.refund));
  }

  ghost function Burnt(o: Outcome, close: Closer): nat {
    o.burnt + close(o.world).burnt
  }

  // Applies one message: exactly the executable ones, and with exactly the specified outcome.
  method ApplyMessage(gp: GasPool, db: StateDB, m: Message, ctx: Context, run: Machine, ghost log: seq<Spend>)
    returns (r: Result, ghost o: Outcome, ghost log': seq<Spend>)
    requires Sized(db.world) && NoReplay(db.world, log) && gp.Valid()
    requires Typed(m) && Priced(m, ctx.baseFee) && (ctx.rules.london ==> ctx.baseFee.Some?) && Lawful(run)
    modifies gp, db
    ensures r.Done? <==> Executable(m, ctx, old(db.world), old(gp.gas))
    ensures r.Done? ==> o == OutcomeOf(run, m, ctx, old(db.world))
    ensures r.Done? ==> db.world == o.world && r.usedGas == o.used && r.failed == o.failed
    ensures r.Done? ==> NoReplay(db.world, log') && log' == log + SpendsOf(old(db.world), m, ctx)
    ensures r.Done? ==>
              && Sized(db.world) && Forward(old(db.world), db.world) && Costly(m, ctx, o.used)
              && Total(db.world) + o.burnt + Loss(m, ctx, o.used) == old(Total(db.world))
              && gp.Valid() && gp.gas + o.used == old(gp.gas)
  {
    ghost var w := db.world;
    var st := new StateTransition(gp, db, m, ctx, run);
    ghost var t;
    r, t, log' := st.Execute(log);
    o := Outcome(w, 0, false, 0);
    if r.Done? {
      CostlyEnough(m, ctx, r, t.effect.gasLeft);
      OutcomeIs(run, m, ctx, w, t, r, st.gasRemaining, db.world);
      o := Outcome(db.world, r.usedGas, r.failed, t.effect.burnt);
    }
  }

  lemma {:induction false} ClosingApplies(m: Message, ctx: Context, w: World, pool: nat, usedGas: nat, o: Outcome,
                                          close: Closer, log: seq<Spend>)
    requires Sized(o.world) && Forward(w, o.world) && Costly(m, ctx, o.used) && LawfulCloser(close)
    requires Total(o.world) + o.burnt + Loss(m, ctx, o.used) == Total(w) && NoReplay(o.world, log)
    ensures var c := close(o.world);
            && c.world.refund == 0 && NoReplay(c.world, log)
            && Applied(m, ctx, w, pool + o.used, usedGas, c.world, pool, ReceiptOf(usedGas, o), Burnt(o, close))
  {
    var c := close(o.world);
    assert CloseLaw(o.world, c);
    ForwardTransitive(w, o.world, c.world);
    NoReplayForward(o.world, c.world, log);
  }

  // Applies one message and closes its transaction.
  method ApplyTransaction(gp: GasPool, db: StateDB, m: Message, ctx: Context, run: Machine, close: Closer,
                          usedGas: nat, ghost log: seq<Spend>)
    returns (receipt: Option<Receipt>, ghost o: Outcome, ghost burnt: nat, ghost log': seq<Spend>)
    requires Sized(db.world) && NoReplay(db.world, log) && gp.Valid()
    requires Typed(m) && Priced(m, ctx.baseFee) && (ctx.rules.london ==> ctx.baseFee.Some?)
    requires Lawful(run) && LawfulCloser(close)
    modifies gp, db
    ensures receipt.Some? <==> Executable(m, ctx, old(db.world), old(gp.gas))
    ensures receipt.Some? ==>
              && o == OutcomeOf(run, m, ctx, old(db.world))
              && db.world == close(o.world).world && burnt == Burnt(o, close)
              && receipt.value == ReceiptOf(usedGas, o)
    ensures receipt.Some? ==> NoReplay(db.world, log') && log' == log + SpendsOf(old(db.world), m, ctx)
    ensures receipt.Some? ==>
              && gp.Valid() && db.world.refund == 0
              && Applied(m, ctx, old(db.world), old(gp.gas), usedGas, db.world, gp.gas, receipt.value, burnt)
  {
    ghost var w := db.world;
    var r;
    r, o, log' := ApplyMessage(gp, db, m, ctx, run, log);
    receipt, burnt := None, 0;
    if r.Done? {
      ClosingApplies(m, ctx, w, gp.gas, usedGas, o, close, log');
      var c := close(db.world);
      burnt := o.burnt + c.burnt;
      receipt := Some(Receipt(r.usedGas, usedGas + r.usedGas, r.failed));
      db.world := c.world;
    }
  }

  /* The state transition as a rule */

  // Which messages are executable, what comes of them and which signatures they spend.
  datatype Rule = Rule(
    executable: (Message, World, nat) -> bool,
    outcome: (Message, World) -> Outcome,
    spends: (Message, World) -> seq<Spend>)

  ghost function TheRule(run: Machine, ctx: Context): Rule {
    Rule((m: Message, w: World, pool: nat) => |m.data| < TWO_64 && Executable(m, ctx, w, pool),
         (m: Message, w: World) => if |m.data| < TWO_64 then OutcomeOf(run, m, ctx, w) else Outcome(w, 0, false, 0),
         (m: Message, w: World) => SpendsOf(w, m, ctx))
  }

  ghost predicate RuleAt(rule: Rule, run: Machine, ctx: Context, m: Message, w: World, pool: nat) {
    |m.data| < TWO_64 ==>
      && (rule.executable(m, w, pool) <==> Executable(m, ctx, w, pool))
      && rule.outcome(m, w) == OutcomeOf(run, m, ctx, w) && rule.spends(m, w) == SpendsOf(w, m, ctx)
  }

  ghost predicate IsRule(rule: Rule, run: Machine, ctx: Context) {
    forall m, w, pool {:trigger RuleAt(rule, run, ctx, m, w, pool)} :: RuleAt(rule, run, ctx, m, w, pool)
  }

  lemma {:induction false} TheRuleIs(run: Machine, ctx: Context)
    ensures IsRule(TheRule(run, ctx), run, ctx)
  {
  }

  // The same as applying a transaction, by the rule.
  method ApplyByRule(gp: GasPool, db: StateDB, m: Message, ctx: Context, run: Machine, close: Closer,
                     usedGas: nat, ghost log: seq<Spend>, ghost rule: Rule)
    returns (receipt: Option<Receipt>, ghost burnt: nat)
    requires Sized(db.world) && NoReplay(db.world, log) && gp.Valid()
    requires Typed(m) && Priced(m, ctx.baseFee) && (ctx.rules.london ==> ctx.baseFee.Some?)
    requires Lawful(run) && LawfulCloser(close) && IsRule(rule, run, ctx)
    modifies gp, db
    ensures receipt.Some? <==> rule.executable(m, old(db.world), old(gp.gas))
    ensures receipt.Some? ==>
              var o, spends := rule.outcome(m, old(db.world)), rule.spends(m, old(db.world));
              && db.world == close(o.world).world && burnt == Burnt(o, close)
              && receipt.value == ReceiptOf(usedGas, o)
              && |spends| > 0 && spends[0] == Spend(m.from, m.nonce) && NoReplay(db.world, log + spends)
    ensures receipt.Some? ==>
              && gp.Valid()
              && Applied(m, ctx, old(db.world), old(gp.gas), usedGas, db.world, gp.gas, receipt.value, burnt)
  {
    assert RuleAt(rule, run, ctx, m, db.world, gp.gas);
    ghost var o, log';
    receipt, o, burnt, log' := ApplyTransaction(gp, db, m, ctx, run, close, usedGas, log);
  }

  predicate IsSystem(b: Block, tx: Transaction) {
    b.posa && tx.kind.System?
  }

  ghost predicate HasSystem(b: Block, txs: seq<Transaction>) {
    txs != [] && (HasSystem(b, txs[..|txs| - 1]) || IsSystem(b, txs[|txs| - 1]))
  }

  // Everything is classified and signed, and since Cancun nothing follows a system transaction
  // but system transactions.
  ghost predicate Sorted(b: Block, txs: seq<Transaction>) {
    txs == [] ||
    var before, tx := txs[..|txs| - 1], txs[|txs| - 1];
    && Sorted(b, before)
    && (b.posa ==> !tx.kind.Unclassified?)
    && (!IsSystem(b, tx) ==> tx.sender.Some? && !(b.ctx.rules.cancun && HasSystem(b, before)))
  }

  // The messages of the ordinary transactions, in their order.
  ghost function Ordinaries(b: Block, txs: seq<Transaction>): seq<Message>
    requires forall i :: 0 <= i < |txs| ==> txs[i].fields.gasPrice <= txs[i].fields.gasFeeCap
  {
    if txs == [] then []
    else
      var before, tx := Ordinaries(b, txs[..|txs| - 1]), txs[|txs| - 1];
      if IsSystem(b, tx) || tx.sender.None? then before else before + [ToMessage(tx, b.ctx.baseFee).value]
  }

  // The classified part of a block, with the messages applied of it.
  ghost predicate Sifted(b: Block, txs: seq<Transaction>, systemTxs: nat, applied: seq<Message>)
    requires forall i :: 0 <= i < |txs| ==> txs[i].fields.gasPrice <= txs[i].fields.gasFeeCap
  {
    Sorted(b, txs) && applied == Ordinaries(b, txs) && (systemTxs > 0 <==> HasSystem(b, txs))
  }

  // A block is in order if and only if, of every transaction, the class is known under a consensus
  // engine that has system transactions, the others are signed, and since Cancun the system
  // transactions come last.
  lemma {:induction false} SortedMeans(b: Block, txs: seq<Transaction>)
    ensures Sorted(b, txs) <==>
            && (forall i :: 0 <= i < |txs| ==> InOrder(b, txs[i]))
            && (b.ctx.rules.cancun ==> forall i, j :: 0 <= i < j < |txs| && IsSystem(b, txs[i]) ==> IsSystem(b, txs[j]))
    ensures HasSystem(b, txs) <==> exists i :: 0 <= i < |txs| && b.posa && txs[i].kind.System?
    decreases |txs|
  {
    if txs != [] {
      var last := |txs| - 1;
      SortedMeans(b, txs[..last]);
      assert forall i :: 0 <= i < last ==> txs[..last][i] == txs[i];
    }
  }

  predicate InOrder(b: Block, tx: Transaction) {
    if b.posa then !tx.kind.Unclassified? && (tx.kind.Ordinary? ==> tx.sender.Some?) else tx.sender.Some?
  }

  // An ordinary transaction has its message at the place that the ordinary ones before it leave, and
  // no other message is there.
  lemma {:induction false} OrdinaryAt(b: Block, txs: seq<Transaction>, i: nat)
    requires forall k :: 0 <= k < |txs| ==> txs[k].fields.gasPrice <= txs[k].fields.gasFeeCap
    requires Sorted(b, txs) && i < |txs|
    ensures var k := |Ordinaries(b, txs[..i])|;
            if b.posa && txs[i].kind.System? then |Ordinaries(b, txs[..i + 1])| == k
            else |Ordinaries(b, txs[..i + 1])| == k + 1 && k < |Ordinaries(b, txs)| && txs[i].sender.Some? &&
                 Ordinaries(b, txs)[k] == ToMessage(txs[i], b.ctx.baseFee).value
    ensures Ordinaries(b, txs[..i]) <= Ordinaries(b, txs)
    decreases |txs|
  {
    var last := |txs| - 1;
    var before := txs[..last];
    assert txs[..|txs|] == txs && txs[..i + 1][..i] == txs[..i];
    if i < last {
      OrdinaryAt(b, before, i);
      assert before[..i] == txs[..i] && before[..i + 1] == txs[..i + 1];
    }
  }

  // Whether a transaction is refused, left to the consensus engine, or applied.
  datatype Verdict = Refuse | Leave | Apply(m: Message)

  function Classify(b: Block, tx: Transaction, systemTxs: nat): (v: Verdict)
    requires Typed(tx.fields) && tx.fields.gasPrice <= tx.fields.gasFeeCap
    ensures v.Apply? ==> Typed(v.m) && Priced(v.m, b.ctx.baseFee)
  {
    if b.posa && tx.kind.Unclassified? then Refuse
    else if b.posa && tx.kind.System? then Leave
    else if b.ctx.rules.cancun && systemTxs > 0 then Refuse
    else
      var m := ToMessage(tx, b.ctx.baseFee);
      if m.None? then Refuse else Apply(m.value)
  }

  lemma {:induction false} SiftOne(b: Block, i: nat, systemTxs: nat, applied: seq<Message>)
    requires WellFormed(b) && i < |b.txs| && Sifted(b, b.txs[..i], systemTxs, applied)
    ensures match Classify(b, b.txs[i], systemTxs)
            case Refuse => !Sorted(b, b.txs[..i + 1])
            case Leave => Sifted(b, b.txs[..i + 1], systemTxs + 1, applied)
            case Apply(m) => Sifted(b, b.txs[..i + 1], systemTxs, applied + [m])
  {
    assert b.txs[..i + 1][..i] == b.txs[..i];
  }

  /* The transactions of a block, one after the other */

  // Where the first transactions of a block lead: to a state, or nowhere.
  datatype Point =
    | At(
        world: World,
        pool: nat,
        used: nat,
        systemTxs: nat,
        receipts: seq<Receipt>,
        ms: seq<Message>,
        burnt: nat,
        ledger: Ledger)
    | Halted

  ghost function Start(w: World, b: Block, l: Ledger): Point {
    At(w, b.gasLimit, 0, 0, [], [], 0, l)
  }

  // The next transaction can be left to the engine or applied.
  ghost predicate Applicable(b: Block, rule: Rule, p: Point, i: nat)
    requires WellFormed(b) && i < |b.txs| && p.At?
  {
    match Classify(b, b.txs[i], p.systemTxs)
    case Refuse => false
    case Leave => true
    case Apply(m) => rule.executable(m, p.world, p.pool)
  }

  // A message has been applied and its transaction closed.
  ghost function Moved(p: Point, m: Message, w: World, receipt: Receipt, burnt: nat, spends: seq<Spend>): Point
    requires p.At?
  {
    At(w, Monus(p.pool, receipt.gasUsed), receipt.cumulativeGasUsed, p.systemTxs, p.receipts + [receipt], p.ms + [m],
       p.burnt + burnt, Entered(p.ledger, m, spends))
  }

  ghost function AfterMessage(p: Point, m: Message, rule: Rule, close: Closer): Point
    requires p.At?
  {
    var o := rule.outcome(m, p.world);
    Moved(p, m, close(o.world).world, ReceiptOf(p.used, o), Burnt(o, close), rule.spends(m, p.world))
  }

  ghost function Next(b: Block, rule: Rule, close: Closer, p: Point, i: nat): Point {
    if !WellFormed(b) || i >= |b.txs| || p.Halted? || !Applicable(b, rule, p, i) then Halted
    else
      var v := Classify(b, b.txs[i], p.systemTxs);
      if v.Apply? then AfterMessage(p, v.m, rule, close) else p.(systemTxs := p.systemTxs + 1)
  }

  // So many steps, one after the other.
  ghost function Fold(step: (Point, nat) -> Point, start: Point, n: nat): Point {
    if n == 0 then start else step(Fold(step, start, n - 1), n - 1)
  }

  ghost function Stepper(b: Block, rule: Rule, close: Closer): (Point, nat) -> Point {
    (p: Point, i: nat) => Next(b, rule, close, p, i)
  }

  // Where the first n transactions lead.
  ghost function Reached(b: Block, rule: Rule, close: Closer, start: Point, n: nat): Point {
    Fold(Stepper(b, rule, close), start, n)
  }

  ghost predicate Strict(step: (Point, nat) -> Point) {
    forall i :: step(Halted, i) == Halted
  }

  lemma {:induction false} FoldHalted(step: (Point, nat) -> Point, start: Point, m: nat, n: nat)
    requires Strict(step) && m <= n && Fold(step, start, m).Halted?
    ensures Fold(step, start, n).Halted?
  {
    if m < n {
      FoldHalted(step, start, m, n - 1);
    }
  }

  ghost predicate StepsOn(step: (Point, nat) -> Point, start: Point, i: nat) {
    Fold(step, start, i).At? && step(Fold(step, start, i), i).At?
  }

  lemma {:induction false} FoldIff(step: (Point, nat) -> Point, start: Point, n: nat)
    requires Strict(step) && start.At?
    ensures Fold(step, start, n).At? <==> forall i :: 0 <= i < n ==> StepsOn(step, start, i)
  {
    if n > 0 {
      FoldIff(step, start, n - 1);
      if Fold(step, start, n).At? {
        assert StepsOn(step, start, n - 1);
      } else {
        assert !StepsOn(step, start, n - 1);
      }
    }
  }

  lemma {:induction false} StepperIsStrict(b: Block, rule: Rule, close: Closer)
    ensures Strict(Stepper(b, rule, close))
  {
  }

  // The transaction is applicable where the ones before it lead.
  ghost predicate Passes(b: Block, rule: Rule, close: Closer, start: Point, i: nat)
    requires WellFormed(b) && i < |b.txs|
  {
    var p := Reached(b, rule, close, start, i);
    p.At? && Applicable(b, rule, p, i)
  }

  // A block is carried through if and only if every transaction is applicable where the ones before
  // it lead.
  lemma {:induction false} ReachedIff(b: Block, rule: Rule, close: Closer, start: Point, n: nat)
    requires WellFormed(b) && n <= |b.txs| && start.At?
    ensures Reached(b, rule, close, start, n).At? <==> forall i :: 0 <= i < n ==> Passes(b, rule, close, start, i)
  {
    var step := Stepper(b, rule, close);
    StepperIsStrict(b, rule, close);
    FoldIff(step, start, n);
    forall i | 0 <= i < n
      ensures StepsOn(step, start, i) <==> Passes(b, rule, close, start, i)
    {
      NextIff(b, rule, close, Reached(b, rule, close, start, i), i);
    }
  }

  lemma {:induction false} NextIff(b: Block, rule: Rule, close: Closer, p: Point, i: nat)
    requires WellFormed(b) && i < |b.txs|
    ensures Stepper(b, rule, close)(p, i).At? <==> p.At? && Applicable(b, rule, p, i)
  {
  }

  ghost predicate GasRight(receipts: seq<Receipt>, used: nat) {
    GasSum(receipts) == used && Cumulative(receipts)
  }

  lemma {:induction false} GasAppend(receipts: seq<Receipt>, used: nat, r: Receipt)
    requires GasRight(receipts, used) && r.cumulativeGasUsed == used + r.gasUsed
    ensures GasRight(receipts + [r], r.cumulativeGasUsed)
  {
    CumulativeAppend(receipts, r);
  }

  // Gas and wei add up.
  ghost predicate BooksRight(p: Point, ctx: Context, gasLimit: nat, total: nat)
    requires p.At?
  {
    && Sized(p.world) && p.pool + p.used == gasLimit < TWO_64
    && GasRight(p.receipts, p.used)
    && Balanced(Total(p.world), p.burnt, p.used, p.ms, ctx, total)
  }

  // Every signature of an applied message or authorization was spent just once, and every message
  // paid its due.
  ghost predicate LogRight(p: Point, ctx: Context)
    requires p.At?
  {
    NoReplay(p.world, p.ledger.log) && Marked(p.ledger) && Ample(p.ms, p.receipts, ctx)
  }

  // All that holds of a block up to a transaction.
  ghost predicate Right(b: Block, p: Point, i: nat, total: nat)
    requires WellFormed(b) && i <= |b.txs|
  {
    && p.At? && BooksRight(p, b.ctx, b.gasLimit, total) && LogRight(p, b.ctx)
    && Sifted(b, b.txs[..i], p.systemTxs, p.ms)
  }

  lemma {:induction false} GasSumGrows(receipts: seq<Receipt>, i: nat, j: nat)
    requires i < j < |receipts| && forall k :: 0 < k < |receipts| ==> receipts[k].gasUsed > 0
    ensures GasSum(receipts[..i + 1]) < GasSum(receipts[..j + 1])
  {
    assert receipts[..j + 1][..j] == receipts[..j];
    if i < j - 1 {
      GasSumGrows(receipts, i, j - 1);
    }
  }

  ghost predicate Increasing(receipts: seq<Receipt>) {
    forall i, j :: 0 <= i < j < |receipts| ==> receipts[i].cumulativeGasUsed < receipts[j].cumulativeGasUsed
  }

  // Cumulative gas strictly increases exactly when every receipt after the first shows gas used.
  lemma {:induction false} CumulativeStrict(receipts: seq<Receipt>)
    requires Cumulative(receipts)
    ensures Increasing(receipts) <==> forall k :: 0 < k < |receipts| ==> receipts[k].gasUsed > 0
  {
    if Increasing(receipts) {
      forall k | 0 < k < |receipts|
        ensures receipts[k].gasUsed > 0
      {
        assert receipts[k - 1].cumulativeGasUsed < receipts[k].cumulativeGasUsed;
        assert receipts[..k + 1][..k] == receipts[..k];
      }
    } else {
      var i, j :| 0 <= i < j < |receipts| && receipts[i].cumulativeGasUsed >= receipts[j].cumulativeGasUsed;
      if forall k :: 0 < k < |receipts| ==> receipts[k].gasUsed > 0 {
        GasSumGrows(receipts, i, j);
      }
    }
  }

  // It does so for messages with an intrinsic cost.
  lemma {:induction false} CumulativeIncreases(receipts: seq<Receipt>, used: nat, ms: seq<Message>, ctx: Context)
    requires GasRight(receipts, used) && Ample(ms, receipts, ctx)
    requires forall k :: 0 < k < |ms| ==> Taxed(ms[k], ctx)
    ensures Increasing(receipts)
  {
    forall k | 0 < k < |receipts|
      ensures receipts[k].gasUsed > 0
    {
      assert Costly(ms[k], ctx, receipts[k].gasUsed) && Taxed(ms[k], ctx);
    }
    CumulativeStrict(receipts);
  }

  lemma {:induction false} MovedBooks(p: Point, m: Message, w: World, receipt: Receipt, burnt: nat, spends: seq<Spend>,
                                      ctx: Context, gasLimit: nat, total: nat, pool: nat)
    requires p.At? && BooksRight(p, ctx, gasLimit, total)
    requires Applied(m, ctx, p.world, p.pool, p.used, w, pool, receipt, burnt)
    ensures BooksRight(Moved(p, m, w, receipt, burnt, spends), ctx, gasLimit, total)
    ensures Moved(p, m, w, receipt, burnt, spends).pool == pool
  {
    GasAppend(p.receipts, p.used, receipt);
    BalancedAppend(p.ms, ctx, m, p.used, receipt.gasUsed, receipt.cumulativeGasUsed,
                   Total(p.world), p.burnt, Total(w), burnt, total);
  }

  lemma {:induction false} MovedLog(p: Point, m: Message, w: World, receipt: Receipt, burnt: nat, spends: seq<Spend>,
                                    ctx: Context)
    requires p.At? && LogRight(p, ctx) && Costly(m, ctx, receipt.gasUsed)
    requires |spends| > 0 && spends[0] == Spend(m.from, m.nonce)
    requires NoReplay(w, p.ledger.log + spends)
    ensures LogRight(Moved(p, m, w, receipt, burnt, spends), ctx)
  {
    EnteredMarked(p.ledger, m, spends);
    AmpleAppend(p.ms, p.receipts, ctx, m, receipt);
  }

  lemma {:induction false} MovedRight(b: Block, p: Point, i: nat, total: nat, m: Message, w: World, receipt: Receipt,
                                      burnt: nat, spends: seq<Spend>, pool: nat)
    requires WellFormed(b) && i < |b.txs| && Right(b, p, i, total)
    requires Classify(b, b.txs[i], p.systemTxs) == Apply(m)
    requires Applied(m, b.ctx, p.world, p.pool, p.used, w, pool, receipt, burnt)
    requires |spends| > 0 && spends[0] == Spend(m.from, m.nonce) && NoReplay(w, p.ledger.log + spends)
    ensures Right(b, Moved(p, m, w, receipt, burnt, spends), i + 1, total) && Forward(p.world, w)
    ensures Moved(p, m, w, receipt, burnt, spends).pool == pool
  {
    MovedBooks(p, m, w, receipt, burnt, spends, b.ctx, b.gasLimit, total, pool);
    MovedLog(p, m, w, receipt, burnt, spends, b.ctx);
    SiftOne(b, i, p.systemTxs, p.ms);
  }

  lemma {:induction false} NextIs(b: Block, rule: Rule, close: Closer, p: Point, i: nat)
    requires WellFormed(b) && i < |b.txs| && p.At?
    ensures match Classify(b, b.txs[i], p.systemTxs)
            case Refuse => Next(b, rule, close, p, i) == Halted
            case Leave => Next(b, rule, close, p, i) == p.(systemTxs := p.systemTxs + 1)
            case Apply(m) => Next(b, rule, close, p, i) == if rule.executable(m, p.world, p.pool)
                                                           then AfterMessage(p, m, rule, close) else Halted
  {
  }

  // One more ordinary transaction.
  method ApplyNext(gp: GasPool, db: StateDB, block: Block, i: nat, m: Message, run: Machine, close: Closer,
                   usedGas: nat, ghost total: nat, ghost p: Point, ghost rule: Rule)
    returns (receipt: Option<Receipt>, ghost p': Point)
    requires WellFormed(block) && i < |block.txs| && Lawful(run) && LawfulCloser(close) && IsRule(rule, run, block.ctx)
    requires Right(block, p, i, total) && Classify(block, block.txs[i], p.systemTxs) == Apply(m)
    requires gp.Valid() && usedGas == p.used && db.world == p.world && gp.gas == p.pool
    modifies gp, db
    ensures receipt.Some? <==> rule.executable(m, p.world, p.pool)
    ensures receipt.Some? ==> p' == AfterMessage(p, m, rule, close)
    ensures receipt.Some? ==>
              && Right(block, p', i + 1, total) && Forward(p.world, p'.world)
              && gp.Valid() && gp.gas == p'.pool && db.world == p'.world
              && p'.receipts == p.receipts + [receipt.value] && p'.used == receipt.value.cumulativeGasUsed
  {
    ghost var burnt := 0;
    receipt, burnt := ApplyByRule(gp, db, m, block.ctx, run, close, usedGas, p.ledger.log, rule);
    p' := p;
    if receipt.Some? {
      p' := AfterMessage(p, m, rule, close);
      MovedRight(block, p, i, total, m, db.world, receipt.value, burnt, rule.spends(m, p.world), gp.gas);
    }
  }

  // One more transaction of the block: not acceptable, or left to the consensus engine, or applied.
  method ProcessOne(gp: GasPool, db: StateDB, block: Block, i: nat, systemTxs: nat, run: Machine, close: Closer,
                    usedGas: nat, ghost total: nat, ghost p: Point, ghost rule: Rule)
    returns (ok: bool, systemTxs': nat, receipts: seq<Receipt>, usedGas': nat, ghost p': Point)
    requires WellFormed(block) && i < |block.txs| && Lawful(run) && LawfulCloser(close) && IsRule(rule, run, block.ctx)
    requires Right(block, p, i, total) && systemTxs == p.systemTxs && usedGas == p.used
    requires gp.Valid() && db.world == p.world && gp.gas == p.pool
    modifies gp, db
    ensures p' == Next(block, rule, close, p, i) && (ok <==> p'.At?)
    ensures ok ==>
              && Right(block, p', i + 1, total) && Forward(p.world, p'.world)
              && systemTxs' == p'.systemTxs && usedGas' == p'.used && p'.receipts == p.receipts + receipts
              && gp.Valid() && db.world == p'.world && gp.gas == p'.pool
  {
    ok, systemTxs', receipts, usedGas', p' := false, systemTxs, [], usedGas, Halted;
    NextIs(block, rule, close, p, i);
    match Classify(block, block.txs[i], systemTxs)
    case Refuse =>
    case Leave =>
      ok, systemTxs' := true, systemTxs + 1;
      p' := p.(systemTxs := systemTxs + 1);
      SiftOne(block, i, systemTxs, p.ms);
    case Apply(m) =>
      var receipt;
      ghost var q;
      receipt, q := ApplyNext(gp, db, block, i, m, run, close, usedGas, total, p, rule);
      if receipt.Some? {
        ok, receipts, usedGas', p' := true, [receipt.value], receipt.value.cumulativeGasUsed, q;
      }
  }

  // The step of the loop, as a function.
  ghost predicate StepAt(step: (Point, nat) -> Point, block: Block, rule: Rule, close: Closer, p: Point, i: nat) {
    step(p, i) == Next(block, rule, close, p, i)
  }

  ghost predicate IsStep(step: (Point, nat) -> Point, block: Block, rule: Rule, close: Closer) {
    && (forall p, i {:trigger StepAt(step, block, rule, close, p, i)} :: StepAt(step, block, rule, close, p, i))
    && Strict(step)
  }

  lemma {:induction false} StepperIs(block: Block, rule: Rule, close: Closer)
    ensures IsStep(Stepper(block, rule, close), block, rule, close)
  {
  }

  lemma {:induction false} StartIsRight(b: Block, w: World, l: Ledger)
    requires WellFormed(b) && Sized(w) && NoReplay(w, l.log) && Marked(l)
    ensures Right(b, Start(w, b, l), 0, Total(w))
  {
  }

  // One more step of the loop.
  method ProcessNext(gp: GasPool, db: StateDB, block: Block, i: nat, systemTxs: nat, run: Machine, close: Closer,
                     usedGas: nat, ghost total: nat, ghost start: Point, ghost p: Point, ghost rule: Rule,
                     ghost step: (Point, nat) -> Point)
    returns (ok: bool, systemTxs': nat, receipts: seq<Receipt>, usedGas': nat, ghost p': Point)
    requires WellFormed(block) && i < |block.txs| && Lawful(run) && LawfulCloser(close) && IsRule(rule, run, block.ctx)
    requires IsStep(step, block, rule, close) && p == Fold(step, start, i) && Right(block, p, i, total)
    requires start.At? && Forward(start.world, p.world)
    requires systemTxs == p.systemTxs && usedGas == p.used && gp.Valid() && db.world == p.world && gp.gas == p.pool
    modifies gp, db
    ensures p' == Fold(step, start, i + 1) && (ok <==> p'.At?)
    ensures ok ==>
              && Right(block, p', i + 1, total) && Forward(start.world, p'.world)
              && systemTxs' == p'.systemTxs && usedGas' == p'.used && p'.receipts == p.receipts + receipts
              && gp.Valid() && db.world == p'.world && gp.gas == p'.pool
    ensures !ok ==> Fold(step, start, |block.txs|) == Halted
  {
    assert StepAt(step, block, rule, close, p, i);
    ok, systemTxs', receipts, usedGas', p' :=
      ProcessOne(gp, db, block, i, systemTxs, run, close, usedGas, total, p, rule);
    if ok {
      ForwardTransitive(start.world, p.world, p'.world);
    } else {
      FoldHalted(step, start, i + 1, |block.txs|);
    }
  }

  // The transaction loop, by the rule.
  method ProcessTxs(db: StateDB, block: Block, run: Machine, close: Closer, ghost total: nat, ghost start: Point,
                    ghost rule: Rule, ghost step: (Point, nat) -> Point)
    returns (receipts: Option<seq<Receipt>>, usedGas: nat, ghost p: Point)
    requires WellFormed(block) && Lawful(run) && LawfulCloser(close) && IsRule(rule, run, block.ctx)
    requires IsStep(step, block, rule, close) && Right(block, start, 0, total)
    requires start == Start(db.world, block, start.ledger)
    modifies db
    ensures p == Fold(step, start, |block.txs|) && (receipts.Some? <==> p.At?)
    ensures p.At? ==> receipts.value == p.receipts && usedGas == p.used && db.world == p.world
    ensures p.At? ==> Right(block, p, |block.txs|, total) && Forward(old(db.world), db.world)
  {
    var gp := new GasPool();
    gp.AddGas(block.gasLimit);
    var done: seq<Receipt> := [];
    var systemTxs := 0;
    usedGas, receipts := 0, None;
    p := start;
    for i := 0 to |block.txs|
      invariant gp.Valid() && fresh(gp)
      invariant p == Fold(step, start, i) && Right(block, p, i, total) && Forward(start.world, p.world)
      invariant done == p.receipts && usedGas == p.used && systemTxs == p.systemTxs
      invariant db.world == p.world && gp.gas == p.pool
    {
      var ok, more;
      ok, systemTxs, more, usedGas, p :=
        ProcessNext(gp, db, block, i, systemTxs, run, close, usedGas, total, start, p, rule, step);
      if !ok {
        p := Halted;
        return;
      }
      done := done + more;
    }
    receipts := Some(done);
  }

  // Where all the transactions of a block lead.
  ghost function Landing(b: Block, run: Machine, close: Closer, w: World, l: Ledger): Point {
    Reached(b, TheRule(run, b.ctx), close, Start(w, b, l), |b.txs|)
  }

  // What holds of a block that has been carried through from w to p: all its accounts are right, no
  // nonce has fallen back, the balances have lost just the fees and what was burnt, and just the
  // ordinary transactions were applied, in order.
  ghost predicate CarriedThrough(b: Block, p: Point, w: World)
    requires WellFormed(b) && p.At?
  {
    && Right(b, p, |b.txs|, Total(w)) && Forward(w, p.world)
    && Total(p.world) + p.burnt + (if b.ctx.rules.london then p.used * BaseFee(b.ctx) else 0)
       + BlobLoss(p.ms, b.ctx) == Total(w)
    && Sorted(b, b.txs) && p.ms == Ordinaries(b, b.txs)
  }

  // Applies the ordinary transactions of a block; the system transactions are left to the
  // consensus engine and, since Cancun, come last. The block is carried through if and only if every
  // transaction is applicable where the ones before it lead, and it leads where all of them do. Then
  // the pool and the gas used make up the gas limit and the balances have lost just the fees.
  method Process(db: StateDB, block: Block, run: Machine, close: Closer, ghost ledger: Ledger)
    returns (receipts: Option<seq<Receipt>>, usedGas: nat, ghost p: Point)
    requires WellFormed(block) && Lawful(run) && LawfulCloser(close)
    requires Sized(db.world) && NoReplay(db.world, ledger.log) && Marked(ledger)
    modifies db
    ensures p == Landing(block, run, close, old(db.world), ledger) && (receipts.Some? <==> p.At?)
    ensures p.At? ==> receipts.value == p.receipts && usedGas == p.used && db.world == p.world
    ensures p.At? ==> CarriedThrough(block, p, old(db.world))
  {
    ghost var rule := TheRule(run, block.ctx);
    TheRuleIs(run, block.ctx);
    ghost var total, start := Total(db.world), Start(db.world, block, ledger);
    ghost var step := Stepper(block, rule, close);
    StepperIs(block, rule, close);
    StartIsRight(block, db.world, ledger);
    receipts, usedGas, p := ProcessTxs(db, block, run, close, total, start, rule, step);
    assert block.txs[..|block.txs|] == block.txs;
    CostIsProduct(usedGas, BaseFee(block.ctx));
  }

  /* Blocks, one after the other */

  // The state and the ledger after trying the blocks in turn: those that are not carried through
  // leave nothing behind.
  ghost function Adopted(blocks: seq<Block>, run: Machine, close: Closer, w: World, l: Ledger): (World, Ledger)
    requires forall i :: 0 <= i < |blocks| ==> WellFormed(blocks[i])
  {
    if blocks == [] then (w, l)
    else
      var (w', l') := Adopted(blocks[..|blocks| - 1], run, close, w, l);
      var p := Landing(blocks[|blocks| - 1], run, close, w', l');
      if p.At? then (p.world, p.ledger) else (w', l')
  }

  // Along a block the ledger enters just the messages of the ordinary transactions.
  lemma {:induction false} EntersOrdinaries(b: Block, rule: Rule, close: Closer, step: (Point, nat) -> Point,
                                            start: Point, n: nat)
    requires WellFormed(b) && n <= |b.txs| && IsStep(step, b, rule, close)
    requires start.At? && start.ms == [] && start.systemTxs == 0
    ensures var p := Fold(step, start, n);
            p.At? ==> Sifted(b, b.txs[..n], p.systemTxs, p.ms) && p.ledger.applied == start.ledger.applied + p.ms
  {
    if n > 0 {
      EntersOrdinaries(b, rule, close, step, start, n - 1);
      var p := Fold(step, start, n - 1);
      assert StepAt(step, b, rule, close, p, n - 1);
      if step(p, n - 1).At? {
        StepEnters(b, rule, close, p, n - 1, start.ledger.applied);
      }
    }
  }

  lemma {:induction false} StepEnters(b: Block, rule: Rule, close: Closer, p: Point, i: nat, applied: seq<Message>)
    requires WellFormed(b) && i < |b.txs| && p.At? && Next(b, rule, close, p, i).At?
    requires Sifted(b, b.txs[..i], p.systemTxs, p.ms) && p.ledger.applied == applied + p.ms
    ensures var p' := Next(b, rule, close, p, i);
            Sifted(b, b.txs[..i + 1], p'.systemTxs, p'.ms) && p'.ledger.applied == applied + p'.ms
  {
    NextIs(b, rule, close, p, i);
    SiftOne(b, i, p.systemTxs, p.ms);
    var v := Classify(b, b.txs[i], p.systemTxs);
    if v.Apply? {
      assert applied + p.ms + [v.m] == applied + (p.ms + [v.m]);
    }
  }

  lemma {:induction false} BlockEnters(b: Block, run: Machine, close: Closer, w: World, l: Ledger)
    requires WellFormed(b)
    ensures var p := Landing(b, run, close, w, l);
            p.At? ==> p.ledger.applied == l.applied + Ordinaries(b, b.txs)
  {
    var rule := TheRule(run, b.ctx);
    StepperIs(b, rule, close);
    EntersOrdinaries(b, rule, close, Stepper(b, rule, close), Start(w, b, l), |b.txs|);
    assert b.txs[..|b.txs|] == b.txs;
  }

  // A block that is carried through is adopted, and its ordinary messages are entered in order; any
  // other leaves state and ledger as they were.
  lemma {:induction false} OneMoreBlock(blocks: seq<Block>, b: Block, run: Machine, close: Closer, w: World, l: Ledger)
    requires WellFormed(b) && forall i :: 0 <= i < |blocks| ==> WellFormed(blocks[i])
    ensures var (w1, l1) := Adopted(blocks, run, close, w, l);
            var (w2, l2) := Adopted(blocks + [b], run, close, w, l);
            if Landing(b, run, close, w1, l1).At? then
              w2 == Landing(b, run, close, w1, l1).world && l2.applied == l1.applied + Ordinaries(b, b.txs)
            else w2 == w1 && l2 == l1
  {
    var (w1, l1) := Adopted(blocks, run, close, w, l);
    assert (blocks + [b])[..|blocks|] == blocks;
    BlockEnters(b, run, close, w1, l1);
  }

  // However many blocks are tried, no signature of all the messages and authorizations applied in
  // the blocks adopted is ever spent twice, no nonce falls back and no wei appears.
  method ProcessAll(db: StateDB, blocks: seq<Block>, run: Machine, close: Closer, ghost ledger: Ledger)
    returns (ghost ledger': Ledger)
    requires forall i :: 0 <= i < |blocks| ==> WellFormed(blocks[i])
    requires Lawful(run) && LawfulCloser(close)
    requires Sized(db.world) && NoReplay(db.world, ledger.log) && Marked(ledger)
    modifies db
    ensures (db.world, ledger') == Adopted(blocks, run, close, old(db.world), ledger)
    ensures Sized(db.world) && NoReplay(db.world, ledger'.log) && Marked(ledger') && AllDistinct(ledger'.applied)
    ensures Forward(old(db.world), db.world) && Total(db.world) <= old(Total(db.world))
  {
    ledger' := ledger;
    ghost var w0 := db.world;
    for i := 0 to |blocks|
      invariant (db.world, ledger') == Adopted(blocks[..i], run, close, w0, ledger)
      invariant Sized(db.world) && NoReplay(db.world, ledger'.log) && Marked(ledger')
      invariant Forward(w0, db.world) && Total(db.world) <= Total(w0)
    {
      assert blocks[..i + 1][..i] == blocks[..i];
      var w := db.world;
      var receipts, usedGas;
      ghost var p;
      receipts, usedGas, p := Process(db, blocks[i], run, close, ledger');
      if receipts.None? {
        db.world := w;
      } else {
        ledger' := p.ledger;
        ForwardTransitive(w0, w, db.world);
      }
    }
    assert blocks[..|blocks|] == blocks;
    MarkedAreDistinct(db.world, ledger');
  }
}
